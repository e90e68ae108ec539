/** The tree-walking interpreter of src/eval.rs. `eval` computes an
    expression's value from the environment without changing it; `execute`
    runs a statement, binding identifiers in the environment and printing.
    Each printed line is recorded in the order it is printed. */
module Eval {
  import opened Wrappers
  import opened Ast
  import RustInt

  type Env = map<Ident, int>

  /** The arithmetic opcodes `eval` handles. The comparison and logical
      opcodes of the syntax tree have no case in its match, so expressions
      using them are outside its domain. */
  predicate Arithmetic(op: Opcode)
  {
    op.Add? || op.Sub? || op.Mul? || op.Div?
  }

  predicate Evaluable(e: Expr)
  {
    match e
    case Op(a, op, b) => Arithmetic(op) && Evaluable(a) && Evaluable(b)
    case _ => true
  }

  predicate Executable(s: Stmt)
  {
    match s
    case LetBinding(_, e) => Evaluable(e)
    case Print(es) => forall i :: 0 <= i < |es| ==> Evaluable(es[i])
    case IfElse(c, t, el) => Evaluable(c) && Executable(t) && (el.Some? ==> Executable(el.value))
    case Block(ss) => forall i :: 0 <= i < |ss| ==> Executable(ss[i])
  }

  /** The panics of `eval`: an unbound identifier, and a zero divisor. */
  datatype EvalError = NotInEnv(ident: Ident) | DivisionByZero

  /** `eval`. Operands are evaluated left to right, so a failing left
      operand is the one reported. An `Error` node left by error recovery
      evaluates to 666. */
  function EvalExpr(env: Env, e: Expr): (r: Result<int, EvalError>)
    requires Evaluable(e)
    ensures e.EnvLoad? ==> (r.Ok? <==> e.ident in env)
    ensures e.EnvLoad? && r.Ok? ==> r.value == env[e.ident]
    ensures e.Op? && EvalExpr(env, e.left).Err? ==> r == EvalExpr(env, e.left)
  {
    match e
    case Number(v) => Ok(v)
    case EnvLoad(id) => if id in env then Ok(env[id]) else Err(NotInEnv(id))
    case Op(a, op, b) =>
      var x :- EvalExpr(env, a);
      var y :- EvalExpr(env, b);
      Combine(op, x, y)
    case Error => Ok(666)
  }

  /** The four operators on i64 values (overflow not modelled); `/`
      rounds toward zero and panics on a zero divisor. */
  function Combine(op: Opcode, x: int, y: int): (r: Result<int, EvalError>)
    requires Arithmetic(op)
    ensures r.Err? <==> op.Div? && y == 0
    ensures op.Div? && y != 0 ==> RustInt.Abs(x - r.value * y) < RustInt.Abs(y)
  {
    match op
    case Add => Ok(x + y)
    case Sub => Ok(x - y)
    case Mul => Ok(x * y)
    case Div => if y == 0 then Err(DivisionByZero) else Ok(RustInt.TruncDiv(x, y))
  }

  /** The identifiers an expression reads. */
  function FreeIdents(e: Expr): set<Ident>
  {
    match e
    case EnvLoad(id) => {id}
    case Op(a, _, b) => FreeIdents(a) + FreeIdents(b)
    case _ => {}
  }

  /** An expression's value depends only on the bindings of the
      identifiers it reads. */
  lemma {:induction false} EvalReadsOnlyFreeIdents(env1: Env, env2: Env, e: Expr)
    requires Evaluable(e)
    requires forall x :: x in FreeIdents(e) ==> (x in env1 <==> x in env2) && (x in env1 ==> env1[x] == env2[x])
    ensures EvalExpr(env1, e) == EvalExpr(env2, e)
  {
    match e
    case Op(a, _, b) =>
      EvalReadsOnlyFreeIdents(env1, env2, a);
      EvalReadsOnlyFreeIdents(env1, env2, b);
    case _ =>
  }

  /** A line `execute` prints: "ifelse: v" or "Print: v". */
  datatype Line = IfElseLine(v: int) | PrintLine(v: int)

  datatype State = State(env: Env, out: seq<Line>)

  /** `execute`. */
  function Exec(st: State, s: Stmt): Result<State, EvalError>
    requires Executable(s)
    decreases s, 1
  {
    match s
    case LetBinding(id, e) =>
      var v :- EvalExpr(st.env, e);
      Ok(st.(env := st.env[id := v]))
    case Print(es) => PrintAll(st, es)
    case Block(ss) => ExecAll(st, ss)
    case IfElse(c, t, el) =>
      var v :- EvalExpr(st.env, c);
      var st' := st.(out := st.out + [IfElseLine(v)]);
      if v != 0 then Exec(st', t)
      else if el.Some? then Exec(st', el.value)
      else Ok(st')
  }

  /** The loop of a Block: each statement starts from the state the
      previous one left. */
  function ExecAll(st: State, ss: seq<Stmt>): Result<State, EvalError>
    requires forall i :: 0 <= i < |ss| ==> Executable(ss[i])
    decreases ss, 0
  {
    if |ss| == 0 then Ok(st)
    else
      var st' :- Exec(st, ss[0]);
      ExecAll(st', ss[1..])
  }

  /** The loop of a Print: evaluate, print, next. */
  function PrintAll(st: State, es: seq<Expr>): Result<State, EvalError>
    requires forall i :: 0 <= i < |es| ==> Evaluable(es[i])
    decreases es
  {
    if |es| == 0 then Ok(st)
    else
      var v :- EvalExpr(st.env, es[0]);
      PrintAll(st.(out := st.out + [PrintLine(v)]), es[1..])
  }

  // ----- Properties of execute -----

  /** A LetBinding evaluates its expression in the current environment and
      binds (or rebinds) that identifier alone; it prints nothing. */
  lemma LetBindsOnlyItsIdent(st: State, id: Ident, e: Expr)
    requires Evaluable(e)
    ensures Exec(st, LetBinding(id, e)).Ok? <==> EvalExpr(st.env, e).Ok?
    ensures Exec(st, LetBinding(id, e)).Ok? ==>
              var st' := Exec(st, LetBinding(id, e)).value;
              && st'.out == st.out
              && id in st'.env && st'.env[id] == EvalExpr(st.env, e).value
              && (forall x :: x != id ==> (x in st'.env <==> x in st.env))
              && (forall x :: x != id && x in st.env ==> st'.env[x] == st.env[x])
  {
  }

  /** An IfElse prints the condition's value, then runs the first branch
      exactly when that value is nonzero, else the second branch if there is
      one, else nothing. */
  lemma IfElseChoosesBranch(st: State, c: Expr, t: Stmt, el: Option<Stmt>)
    requires Executable(IfElse(c, t, el))
    requires EvalExpr(st.env, c).Ok?
    ensures var v := EvalExpr(st.env, c).value;
            var st' := st.(out := st.out + [IfElseLine(v)]);
            && (v != 0 ==> Exec(st, IfElse(c, t, el)) == Exec(st', t))
            && (v == 0 && el.Some? ==> Exec(st, IfElse(c, t, el)) == Exec(st', el.value))
            && (v == 0 && el.None? ==> Exec(st, IfElse(c, t, el)) == Ok(st'))
  {
  }

  /** Running a concatenation runs the first part and then the second from
      the state the first left. */
  lemma {:induction false} ExecAllAppend(st: State, a: seq<Stmt>, b: seq<Stmt>)
    requires forall i :: 0 <= i < |a| ==> Executable(a[i])
    requires forall i :: 0 <= i < |b| ==> Executable(b[i])
    ensures forall i :: 0 <= i < |a + b| ==> Executable((a + b)[i])
    ensures ExecAll(st, a + b) == match ExecAll(st, a) case Ok(st') => ExecAll(st', b) case Err(e) => Err(e)
    decreases a
  {
    if |a| > 0 {
      assert (a + b)[1..] == a[1..] + b;
      match Exec(st, a[0]) {
        case Ok(st') => ExecAllAppend(st', a[1..], b);
        case Err(_) =>
      }
    } else {
      assert a + b == b;
    }
  }

  /** A Print leaves the environment alone and prints, in order, the value
      of each expression. */
  lemma {:induction false} PrintKeepsEnv(st: State, es: seq<Expr>)
    requires forall i :: 0 <= i < |es| ==> Evaluable(es[i])
    ensures PrintAll(st, es).Ok? ==>
              && PrintAll(st, es).value.env == st.env
              && |PrintAll(st, es).value.out| == |st.out| + |es|
              && PrintAll(st, es).value.out[..|st.out|] == st.out
              && forall i :: 0 <= i < |es| ==>
                   EvalExpr(st.env, es[i]).Ok? && PrintAll(st, es).value.out[|st.out| + i] == PrintLine(EvalExpr(st.env, es[i]).value)
    decreases es
  {
    if |es| > 0 && PrintAll(st, es).Ok? {
      var v := EvalExpr(st.env, es[0]).value;
      var st1 := st.(out := st.out + [PrintLine(v)]);
      PrintKeepsEnv(st1, es[1..]);
      var out := PrintAll(st, es).value.out;
      forall i | 0 <= i < |es|
        ensures EvalExpr(st.env, es[i]).Ok? && out[|st.out| + i] == PrintLine(EvalExpr(st.env, es[i]).value)
      {
        if i > 0 {
          assert es[1..][i - 1] == es[i];
          assert out[|st1.out| + (i - 1)] == out[|st.out| + i];
        } else {
          assert out[..|st1.out|][|st.out|] == out[|st.out|];
        }
      }
      assert out[..|st.out|] == out[..|st1.out|][..|st.out|];
    }
  }

  /** The environment only ever gains bindings: no statement removes an
      identifier. */
  lemma {:induction false} ExecKeepsBindings(st: State, s: Stmt, x: Ident)
    requires Executable(s) && Exec(st, s).Ok? && x in st.env
    ensures x in Exec(st, s).value.env
    decreases s, 1
  {
    match s
    case LetBinding(_, _) =>
    case Print(es) => PrintKeepsEnv(st, es);
    case Block(ss) => ExecAllKeepsBindings(st, ss, x);
    case IfElse(c, t, el) =>
      var v := EvalExpr(st.env, c).value;
      var st' := st.(out := st.out + [IfElseLine(v)]);
      if v != 0 {
        ExecKeepsBindings(st', t, x);
      } else if el.Some? {
        ExecKeepsBindings(st', el.value, x);
      }
  }

  lemma {:induction false} ExecAllKeepsBindings(st: State, ss: seq<Stmt>, x: Ident)
    requires forall i :: 0 <= i < |ss| ==> Executable(ss[i])
    requires ExecAll(st, ss).Ok? && x in st.env
    ensures x in ExecAll(st, ss).value.env
    decreases ss, 0
  {
    if |ss| > 0 {
      var st' := Exec(st, ss[0]).value;
      ExecKeepsBindings(st, ss[0], x);
      ExecAllKeepsBindings(st', ss[1..], x);
    }
  }

  // ----- The evaluator object -----

  class Evaluator {
    var env: Env
    var out: seq<Line>

    function Current(): State
      reads this
    {
      State(env, out)
    }

    /** `Evaluator::new`: an empty environment. */
    constructor ()
      ensures env == map[] && out == []
    {
      env := map[];
      out := [];
    }

    /** `execute`: runs the statement in place, or reports the panic that
        ends it. */
    method Execute(s: Stmt) returns (err: Option<EvalError>)
      requires Executable(s)
      modifies this
      ensures Exec(old(Current()), s) == if err.None? then Ok(Current()) else Err(err.value)
      decreases s
    {
      match s {
        case LetBinding(id, e) =>
          var v := EvalExpr(env, e);
          if v.Err? {
            return Some(v.error);
          }
          env := env[id := v.value];
          return None;
        case Print(es) =>
          var i := 0;
          while i < |es|
            invariant 0 <= i <= |es|
            invariant PrintAll(Current(), es[i..]) == PrintAll(old(Current()), es)
          {
            assert es[i..][1..] == es[i + 1..];
            var v := EvalExpr(env, es[i]);
            if v.Err? {
              return Some(v.error);
            }
            out := out + [PrintLine(v.value)];
            i := i + 1;
          }
          return None;
        case Block(ss) =>
          var i := 0;
          while i < |ss|
            invariant 0 <= i <= |ss|
            invariant ExecAll(Current(), ss[i..]) == ExecAll(old(Current()), ss)
          {
            assert ss[i..][1..] == ss[i + 1..];
            err := Execute(ss[i]);
            if err.Some? {
              return err;
            }
            i := i + 1;
          }
          return None;
        case IfElse(c, t, el) =>
          var v := EvalExpr(env, c);
          if v.Err? {
            return Some(v.error);
          }
          out := out + [IfElseLine(v.value)];
          if v.value != 0 {
            err := Execute(t);
          } else if el.Some? {
            err := Execute(el.value);
          } else {
            err := None;
          }
      }
    }
  }

  // ----- The programs of src/main.rs -----

  /** "let a = 41 + 1;" binds a to 42 whatever the state. */
  lemma LetFortyTwo(st: State, a: Ident, s: Stmt)
    requires s == LetBinding(a, Op(Number(41), Add, Number(1)))
    ensures Executable(s)
    ensures Exec(st, s) == Ok(st.(env := st.env[a := 42]))
  {
    assert EvalExpr(st.env, s.expr) == Ok(42);
  }

  /** "print 10 * 10, 123 * 0b101, a;" with a bound to 42 prints 100, 615
      and 42. */
  lemma PrintThree(st: State, a: Ident, es: seq<Expr>)
    requires es == [Op(Number(10), Mul, Number(10)), Op(Number(123), Mul, Number(0x5)), EnvLoad(a)]
    requires a in st.env && st.env[a] == 42
    ensures forall i :: 0 <= i < |es| ==> Evaluable(es[i])
    ensures PrintAll(st, es) == Ok(st.(out := st.out + [PrintLine(100), PrintLine(615), PrintLine(42)]))
  {
    var st1 := st.(out := st.out + [PrintLine(100)]);
    var st2 := st.(out := st.out + [PrintLine(100), PrintLine(615)]);
    var st3 := st.(out := st.out + [PrintLine(100), PrintLine(615), PrintLine(42)]);
    assert EvalExpr(st.env, es[0]) == Ok(100);
    assert EvalExpr(st.env, es[1]) == Ok(615);
    assert EvalExpr(st.env, es[2]) == Ok(42);
    assert st1.out + [PrintLine(615)] == st2.out;
    assert st2.out + [PrintLine(42)] == st3.out;
    assert es[1..][1..][1..] == [];
    assert PrintAll(st3, es[1..][1..][1..]) == Ok(st3);
    assert PrintAll(st2, es[1..][1..]) == Ok(st3);
    assert PrintAll(st1, es[1..]) == Ok(st3);
  }

  /** The first branch of the second program, "{print 10 * 10;}". */
  lemma PrintHundredBlock(st: State, b: Stmt)
    requires b == Block([Print([Op(Number(10), Mul, Number(10))])])
    ensures Executable(b)
    ensures Exec(st, b) == Ok(st.(out := st.out + [PrintLine(100)]))
  {
    var st1 := st.(out := st.out + [PrintLine(100)]);
    var p := b.stmts[0];
    assert Executable(p);
    assert EvalExpr(st.env, p.exprs[0]) == Ok(100);
    assert p.exprs[1..] == [];
    assert PrintAll(st, p.exprs) == Ok(st1);
    assert b.stmts[1..] == [];
    assert ExecAll(st, b.stmts) == Ok(st1);
  }

  /** `test1`: "let a = 41 + 1; print 10 * 10, 123 * 0b101, a;" binds a to
      42 and prints 100, 615 and 42. */
  lemma LetThenPrint(a: Ident, prog: seq<Stmt>)
    requires prog == [
      LetBinding(a, Op(Number(41), Add, Number(1))),
      Print([Op(Number(10), Mul, Number(10)), Op(Number(123), Mul, Number(0x5)), EnvLoad(a)])]
    ensures forall i :: 0 <= i < |prog| ==> Executable(prog[i])
    ensures ExecAll(State(map[], []), prog) == Ok(State(map[a := 42], [PrintLine(100), PrintLine(615), PrintLine(42)]))
  {
    var st := State(map[a := 42], []);
    LetFortyTwo(State(map[], []), a, prog[0]);
    PrintThree(st, a, prog[1].exprs);
    var st' := State(map[a := 42], [PrintLine(100), PrintLine(615), PrintLine(42)]);
    assert st.out + [PrintLine(100), PrintLine(615), PrintLine(42)] == st'.out;
    assert Exec(st, prog[1]) == Ok(st');
    assert prog[1..][1..] == [];
    assert ExecAll(st, prog[1..]) == Ok(st');
  }

  /** The second program of `test1`, "let a = 41 + 1; if a {print 10 * 10;}
      else {print 123 * 0b101, a;}", run from whatever state the evaluator is
      in: it rebinds a to 42, prints the condition's value 42 and then runs
      only the first branch. */
  lemma LetThenIfElse(st: State, a: Ident, prog: seq<Stmt>)
    requires prog == [
      LetBinding(a, Op(Number(41), Add, Number(1))),
      IfElse(EnvLoad(a),
             Block([Print([Op(Number(10), Mul, Number(10))])]),
             Some(Block([Print([Op(Number(123), Mul, Number(0x5)), EnvLoad(a)])])))]
    ensures forall i :: 0 <= i < |prog| ==> Executable(prog[i])
    ensures ExecAll(st, prog) == Ok(State(st.env[a := 42], st.out + [IfElseLine(42), PrintLine(100)]))
  {
    var st1 := st.(env := st.env[a := 42]);
    LetFortyTwo(st, a, prog[0]);
    var st2 := st1.(out := st.out + [IfElseLine(42)]);
    PrintHundredBlock(st2, prog[1].thenStmt);
    var el := prog[1].elseStmt.value;
    var es := el.stmts[0].exprs;
    assert Evaluable(es[0]) && Evaluable(es[1]);
    assert Executable(el.stmts[0]);
    assert Executable(el);
    assert st2.out + [PrintLine(100)] == st.out + [IfElseLine(42), PrintLine(100)];
    assert Exec(st1, prog[1]) == Exec(st2, prog[1].thenStmt);
    assert prog[1..][1..] == [];
  }

  /** `test1` as a whole: the two programs run one after the other on the
      same evaluator, so the second sees the first's binding and output. */
  lemma MainTest(a: Ident, first: seq<Stmt>, second: seq<Stmt>)
    requires first == [
      LetBinding(a, Op(Number(41), Add, Number(1))),
      Print([Op(Number(10), Mul, Number(10)), Op(Number(123), Mul, Number(0x5)), EnvLoad(a)])]
    requires second == [
      LetBinding(a, Op(Number(41), Add, Number(1))),
      IfElse(EnvLoad(a),
             Block([Print([Op(Number(10), Mul, Number(10))])]),
             Some(Block([Print([Op(Number(123), Mul, Number(0x5)), EnvLoad(a)])])))]
    ensures forall i :: 0 <= i < |first + second| ==> Executable((first + second)[i])
    ensures ExecAll(State(map[], []), first + second) ==
              Ok(State(map[a := 42], [PrintLine(100), PrintLine(615), PrintLine(42), IfElseLine(42), PrintLine(100)]))
  {
    LetThenPrint(a, first);
    var st := State(map[a := 42], [PrintLine(100), PrintLine(615), PrintLine(42)]);
    LetThenIfElse(st, a, second);
    ExecAllAppend(State(map[], []), first, second);
    assert st.env[a := 42] == map[a := 42];
    assert st.out + [IfElseLine(42), PrintLine(100)] ==
           [PrintLine(100), PrintLine(615), PrintLine(42), IfElseLine(42), PrintLine(100)];
  }
}

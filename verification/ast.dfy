/** The syntax tree of src/ast.rs: expressions, statements and the twelve
    binary opcodes; the `Debug` printers that render an expression fully
    parenthesised; and `get_dedup`, which interns identifiers in a
    `HandleMap` so that equal names share a handle. */
module Ast {
  import opened Wrappers

  /** A handle of a `HandleMap`, modelled by the slot it names. */
  datatype Handle = Handle(index: nat)

  type Ident = Handle

  datatype Opcode =
    | Mul | Div | Add | Sub | Or | And
    | Equal | NotEqual | LessThan | LessEqual | GreaterThan | GreaterEqual

  datatype Expr =
    | Number(n: int)
    | EnvLoad(ident: Ident)
    | Op(left: Expr, opcode: Opcode, right: Expr)
    | Error

  datatype Stmt =
    | LetBinding(ident: Ident, expr: Expr)
    | Print(exprs: seq<Expr>)
    | IfElse(cond: Expr, thenStmt: Stmt, elseStmt: Option<Stmt>)
    | Block(stmts: seq<Stmt>)

  // ----- Decimal numerals -----

  predicate IsDigit(c: char)
  {
    '0' <= c <= '9'
  }

  function DigitChar(d: nat): (c: char)
    requires d < 10
    ensures IsDigit(c) && c as int - '0' as int == d
  {
    ('0' as int + d) as char
  }

  /** The decimal numeral of n, as `{}` and `{:?}` print an unsigned
      integer: no leading zeros, and a single digit exactly below ten. */
  function NatToString(n: nat): (s: string)
    ensures |s| >= 1 && (|s| == 1 <==> n < 10)
    ensures forall i :: 0 <= i < |s| ==> IsDigit(s[i])
    ensures |s| > 1 ==> s[0] != '0'
  {
    if n < 10 then [DigitChar(n)] else NatToString(n / 10) + [DigitChar(n % 10)]
  }

  /** The value a string of decimal digits denotes. */
  function DecimalValue(s: string): nat
    requires forall i :: 0 <= i < |s| ==> IsDigit(s[i])
  {
    if |s| == 0 then 0
    else DecimalValue(s[..|s| - 1]) * 10 + DigitValue(s[|s| - 1])
  }

  function DigitValue(c: char): (d: nat)
    requires IsDigit(c)
    ensures d < 10
  {
    c as int - '0' as int
  }

  /** Reading a numeral back gives the number it was printed from. */
  lemma {:induction false} NatToStringRoundTrip(n: nat)
    ensures DecimalValue(NatToString(n)) == n
  {
    if n >= 10 {
      var s := NatToString(n);
      assert s[..|s| - 1] == NatToString(n / 10);
      NatToStringRoundTrip(n / 10);
    }
  }

  /** Distinct numbers print as distinct numerals. */
  lemma NatToStringInjective(n: nat, m: nat)
    requires NatToString(n) == NatToString(m)
    ensures n == m
  {
    NatToStringRoundTrip(n);
    NatToStringRoundTrip(m);
  }

  /** `{:?}` of an i64: a minus sign before the magnitude of a negative
      number. */
  function IntToString(i: int): (s: string)
    ensures |s| >= 1
    ensures s[0] == '-' <==> i < 0
    ensures i < 0 ==> s[1..] == NatToString(-i)
    ensures i >= 0 ==> s == NatToString(i)
  {
    if i < 0 then "-" + NatToString(-i) else NatToString(i)
  }

  // ----- The Debug printers -----

  /** `Debug for Opcode`: a fixed symbol per opcode. */
  function OpcodeSymbol(op: Opcode): (s: string)
    ensures 1 <= |s| <= 3
  {
    match op
    case Mul => "*"
    case Div => "/"
    case Add => "+"
    case Sub => "-"
    case Or => "or"
    case And => "and"
    case Equal => "=="
    case NotEqual => "!="
    case LessThan => "<"
    case LessEqual => "<="
    case GreaterThan => ">"
    case GreaterEqual => ">="
  }

  /** No two opcodes print alike. */
  lemma OpcodeSymbolInjective(a: Opcode, b: Opcode)
    requires OpcodeSymbol(a) == OpcodeSymbol(b)
    ensures a == b
  {
  }

  /** `Debug for Expr`. An identifier is printed by the `Debug` of its
      handle, which `name` stands for. Only an operation starts with a
      parenthesis, and every operation is wrapped in one pair. */
  function Show(e: Expr, name: Ident -> string): (s: string)
    ensures |s| >= 1
    ensures s[0] == '(' <==> e.Op?
    ensures e.Op? ==> s[|s| - 1] == ')'
  {
    match e
    case Number(n) => IntToString(n)
    case Op(l, op, r) => "(" + Show(l, name) + " " + OpcodeSymbol(op) + " " + Show(r, name) + ")"
    case EnvLoad(id) => "load(" + name(id) + ")"
    case Error => "error"
  }

  /** `Debug for Vec<Expr>`: the elements between brackets, separated by
      ", ". */
  function ShowList(es: seq<Expr>, name: Ident -> string): (s: string)
    ensures |s| >= 2 && s[0] == '[' && s[|s| - 1] == ']'
  {
    "[" + ShowItems(es, name) + "]"
  }

  function ShowItems(es: seq<Expr>, name: Ident -> string): string
  {
    if |es| == 0 then ""
    else if |es| == 1 then Show(es[0], name)
    else Show(es[0], name) + ", " + ShowItems(es[1..], name)
  }

  /** The renderings `lang1_errors` expects: an operator with a missing
      operand prints that operand as "error". */
  lemma RenderMissingOperand(name: Ident -> string, e: Expr)
    requires e == Op(Op(Number(22), Mul, Error), Add, Number(3))
    ensures ShowList([e], name) == "[((22 * error) + 3)]"
  {
    RenderSumWithError(name, e);
    ShowSingle(name, e);
    SumWithErrorBracketed(Show(e, name));
  }

  lemma SumWithErrorBracketed(x: string)
    requires x == "((22 * error) + 3)"
    ensures "[" + x + "]" == "[((22 * error) + 3)]"
  {
  }

  lemma RenderSumWithError(name: Ident -> string, e: Expr)
    requires e == Op(Op(Number(22), Mul, Error), Add, Number(3))
    ensures Show(e, name) == "((22 * error) + 3)"
  {
    RenderProductWithError(name, e.left);
    Numerals();
  }

  lemma ShowSingle(name: Ident -> string, e: Expr)
    ensures ShowList([e], name) == "[" + Show(e, name) + "]"
  {
    assert ShowItems([e], name) == Show(e, name);
  }

  lemma RenderProductWithError(name: Ident -> string, e: Expr)
    requires e == Op(Number(22), Mul, Error)
    ensures Show(e, name) == "(22 * error)"
  {
    Numerals();
  }

  lemma RenderTwoExpressions(name: Ident -> string, e1: Expr, e2: Expr)
    requires e1 == Op(Op(Number(22), Mul, Number(44)), Add, Number(66))
    requires e2 == Op(Error, Mul, Number(3))
    ensures ShowList([e1, e2], name) == "[((22 * 44) + 66), (error * 3)]"
  {
    RenderSum(name, e1);
    RenderErrorTimesThree(name, e2);
    ShowPair(name, e1, e2);
    PairBracketed(Show(e1, name), Show(e2, name));
  }

  lemma PairBracketed(x: string, y: string)
    requires x == "((22 * 44) + 66)" && y == "(error * 3)"
    ensures "[" + x + ", " + y + "]" == "[((22 * 44) + 66), (error * 3)]"
  {
  }

  lemma ShowPair(name: Ident -> string, e1: Expr, e2: Expr)
    ensures ShowList([e1, e2], name) == "[" + Show(e1, name) + ", " + Show(e2, name) + "]"
  {
    assert [e1, e2][1..] == [e2];
    var a, b := Show(e1, name), Show(e2, name);
    assert ShowItems([e1, e2], name) == a + ", " + b;
    assert "[" + (a + ", " + b) + "]" == "[" + a + ", " + b + "]";
  }

  lemma RenderErrorTimesThree(name: Ident -> string, e: Expr)
    requires e == Op(Error, Mul, Number(3))
    ensures Show(e, name) == "(error * 3)"
  {
    Numerals();
  }

  lemma RenderSum(name: Ident -> string, e: Expr)
    requires e == Op(Op(Number(22), Mul, Number(44)), Add, Number(66))
    ensures Show(e, name) == "((22 * 44) + 66)"
  {
    RenderProduct(name, e.left);
    Numerals();
  }

  lemma RenderProduct(name: Ident -> string, e: Expr)
    requires e == Op(Number(22), Mul, Number(44))
    ensures Show(e, name) == "(22 * 44)"
  {
    Numerals();
  }

  lemma RenderBothMissing(name: Ident -> string, e: Expr)
    requires e == Op(Error, Mul, Error)
    ensures ShowList([e], name) == "[(error * error)]"
  {
  }

  /** The numerals of the test expressions. */
  lemma Numerals()
    ensures NatToString(3) == "3" && NatToString(22) == "22"
    ensures NatToString(44) == "44" && NatToString(66) == "66"
  {
  }

  // ----- Interning identifiers -----

  /** The first slot holding `item`. */
  function FindSlot<T(==)>(items: seq<T>, item: T): (r: Option<nat>)
    ensures r.None? <==> item !in items
    ensures r.Some? ==> r.value < |items| && items[r.value] == item && item !in items[..r.value]
  {
    if |items| == 0 then None
    else if items[0] == item then Some(0)
    else
      var r := FindSlot(items[1..], item);
      if r.None? then None
      else
        assert items[..r.value + 1] == [items[0]] + items[1..][..r.value];
        Some(r.value + 1)
  }

  predicate NoDuplicates<T(==)>(items: seq<T>)
  {
    forall i, j :: 0 <= i < j < |items| ==> items[i] != items[j]
  }

  /** `get_dedup` on the table's items: the handle of an equal item when
      there is one, otherwise a new slot holding the item. The item is then
      stored under the returned handle, and a table without duplicates
      stays so. */
  function Intern<T(==)>(items: seq<T>, item: T): (r: (seq<T>, Handle))
    ensures r.1.index < |r.0| && r.0[r.1.index] == item
    ensures item in items ==> r.0 == items
    ensures item !in items ==> r.0 == items + [item] && r.1 == Handle(|items|)
    ensures NoDuplicates(items) ==> NoDuplicates(r.0)
  {
    match FindSlot(items, item)
    case Some(i) => (items, Handle(i))
    case None => (items + [item], Handle(|items|))
  }

  /** Interning the same item twice gives the same handle and leaves the
      table as the first call left it. */
  lemma InternIdempotent<T>(items: seq<T>, item: T)
    ensures Intern(Intern(items, item).0, item) == Intern(items, item)
  {
    var (items', h) := Intern(items, item);
    if item !in items {
      assert items' == items + [item];
      FindLast(items, item);
    }
  }

  lemma FindLast<T>(items: seq<T>, item: T)
    requires item !in items
    ensures FindSlot(items + [item], item) == Some(|items|)
  {
    assert (items + [item])[..|items|] == items;
  }

  /** In a table without duplicates, different items have different
      handles, and each handle gives back its item. */
  lemma InternSeparates<T>(items: seq<T>, a: T, b: T)
    requires NoDuplicates(items) && a != b
    ensures var (items1, ha) := Intern(items, a);
            var (items2, hb) := Intern(items1, b);
            ha != hb && ha.index < |items2| && items2[ha.index] == a && items2[hb.index] == b
  {
    var (items1, ha) := Intern(items, a);
    var (items2, hb) := Intern(items1, b);
    assert items1 <= items2;
    assert items2[ha.index] == items1[ha.index];
  }

  /** `HandleMap<T>` as `get_dedup` uses it: a table of items addressed by
      handles, which only grows. */
  class HandleMap<T(==)> {
    var items: seq<T>

    constructor ()
      ensures items == []
    {
      items := [];
    }

    /** `get`: the item a handle addresses, if any. */
    function Get(h: Handle): (r: Option<T>)
      reads this
      ensures r.Some? <==> h.index < |items|
      ensures r.Some? ==> r.value == items[h.index]
    {
      if h.index < |items| then Some(items[h.index]) else None
    }

    /** `find_handle`: a linear search for an equal item. */
    method FindHandle(item: T) returns (h: Option<Handle>)
      ensures h.None? <==> item !in items
      ensures h.Some? ==> FindSlot(items, item) == Some(h.value.index)
    {
      var i := 0;
      while i < |items|
        invariant 0 <= i <= |items|
        invariant item !in items[..i]
      {
        if items[i] == item {
          FirstSlot(items, item, i);
          return Some(Handle(i));
        }
        assert items[..i + 1] == items[..i] + [items[i]];
        i := i + 1;
      }
      assert items[..i] == items;
      return None;
    }

    /** `insert`: stores the item in a new slot. */
    method Insert(item: T) returns (h: Handle)
      modifies this
      ensures items == old(items) + [item] && h == Handle(|old(items)|)
    {
      h := Handle(|items|);
      items := items + [item];
    }

    /** `get_dedup`. */
    method GetDedup(item: T) returns (h: Handle)
      modifies this
      ensures (items, h) == Intern(old(items), item)
      ensures Get(h) == Some(item)
    {
      var found := FindHandle(item);
      if found.Some? {
        h := found.value;
      } else {
        h := Insert(item);
      }
    }
  }

  lemma FirstSlot<T>(items: seq<T>, item: T, i: nat)
    requires i < |items| && items[i] == item && item !in items[..i]
    ensures FindSlot(items, item) == Some(i)
  {
  }

  /** `test_handy`: "hello" interned twice shares a handle, "blub" gets
      another, and both are read back. */
  method HandyTest() returns (h1: Handle, h2: Handle, h3: Handle, s1: Option<string>, s3: Option<string>)
    ensures h1 == h2 && h1 != h3
    ensures s1 == Some("hello") && s3 == Some("blub")
  {
    var table := new HandleMap<string>();
    h1 := table.GetDedup("hello");
    h2 := table.GetDedup("hello");
    h3 := table.GetDedup("blub");
    s1 := table.Get(h1);
    s3 := table.Get(h3);
  }
}

/** The `SemanticVisitor` walk. As far as the program goes, the visitor draws the
    tree on standard output (one line per printed node, after a gutter of
    indentation strings and a branch prefix), and brackets every block, `if`,
    `while` and call with a begin/end pair on both the scope printer and the
    symbol table. It checks no typing rule.

    The walk is specified by pure functions computing a `Trace`: the lines written
    to standard output and the lines appended to the scope printer's buffer. Each
    `Visit...` method is proved to append exactly its node's trace, to leave the
    indentation and prefix stacks, the printer's level and globals and the symbol
    table as it found them. */
module Visitor {
  import opened Wrappers
  import opened Text
  import opened Ast
  import opened Output
  import opened Symbols

  /** The four box-drawing strings of the tree drawing. */
  const ChildPrefix := "├──"
  const LastChildPrefix := "└──"
  const ChildIndent := "│   "
  const LastChildIndent := "    "

  function BinOpSymbol(op: BinOpType): string {
    match op
    case ADD => "+"
    case SUB => "-"
    case MUL => "*"
    case DIV => "/"
  }

  function RelOpSymbol(op: RelOpType): string {
    match op
    case EQ => "=="
    case NE => "!="
    case LT => "<"
    case LE => "<="
    case GT => ">"
    case GE => ">="
  }

  function ParseBinOp(s: string): Option<BinOpType> {
    if s == "+" then Some(ADD) else if s == "-" then Some(SUB)
    else if s == "*" then Some(MUL) else if s == "/" then Some(DIV) else None
  }

  function ParseRelOp(s: string): Option<RelOpType> {
    if s == "==" then Some(EQ) else if s == "!=" then Some(NE)
    else if s == "<" then Some(LT) else if s == "<=" then Some(LE)
    else if s == ">" then Some(GT) else if s == ">=" then Some(GE) else None
  }

  /** Each operator is printed with its own symbol, and the symbol determines it. */
  lemma OperatorSymbolsRoundTrip(b: BinOpType, r: RelOpType)
    ensures ParseBinOp(BinOpSymbol(b)) == Some(b)
    ensures ParseRelOp(RelOpSymbol(r)) == Some(r)
  {
  }

  function Concat(ss: seq<string>): string {
    if |ss| == 0 then "" else Concat(ss[..|ss| - 1]) + ss[|ss| - 1]
  }

  /** What the visitor's two stacks (one indentation string and one branch prefix
      per level of the tree) determine about the next line it prints: the gutter
      made of every indentation string but the innermost, the innermost
      indentation string, and the innermost prefix. */
  datatype Margin = Margin(lead: string, indent: string, prefix: string) {
    /** `enter_child` (last == false) or `enter_last_child` (last == true): the
        innermost indentation string joins the gutter. */
    function Enter(last: bool): Margin {
      Margin(lead + indent, if last then LastChildIndent else ChildIndent, if last then LastChildPrefix else ChildPrefix)
    }

    /** `print_indented`: the gutter, then the innermost prefix, then the text. */
    function Line(text: string): string {
      lead + prefix + text
    }
  }

  /** What a visit writes: standard-output lines and scope-printer lines. */
  datatype Trace = Trace(out: seq<string>, scopes: seq<string>)

  const Nothing := Trace([], [])

  function Cat(a: Trace, b: Trace): Trace {
    Trace(a.out + b.out, a.scopes + b.scopes)
  }

  lemma CatAssociative(a: Trace, b: Trace, c: Trace)
    ensures Cat(Cat(a, b), c) == Cat(a, Cat(b, c))
  {
  }

  /** `a` then `b` appended to `s` is `Cat(a, b)` appended to `s`. */
  lemma Then(s: Trace, a: Trace, b: Trace, now: Trace)
    requires now == Cat(Cat(s, a), b)
    ensures now == Cat(s, Cat(a, b))
  {
    CatAssociative(s, a, b);
  }

  lemma CatNothing(a: Trace)
    ensures Cat(a, Nothing) == a
  {
  }

  /** Regrouping of three and four successive appends. */
  lemma Regroup3(s: Trace, a: Trace, b: Trace, c: Trace)
    ensures Cat(Cat(Cat(s, a), b), c) == Cat(s, Cat(a, Cat(b, c)))
  {
    CatAssociative(Cat(s, a), b, c);
    CatAssociative(s, a, Cat(b, c));
  }

  lemma Regroup4(s: Trace, a: Trace, b: Trace, c: Trace, d: Trace)
    ensures Cat(Cat(Cat(Cat(s, a), b), c), d) == Cat(s, Cat(a, Cat(b, Cat(c, d))))
  {
    Regroup3(Cat(s, a), b, c, d);
    CatAssociative(s, a, Cat(b, Cat(c, d)));
  }

  function Printed(m: Margin, text: string): Trace
  {
    Trace([m.Line(text)], [])
  }

  /** `printer.beginScope()` ... `printer.endScope()` around a visit made at `level`:
      both markers at the indentation of the level inside. */
  function Bracketed(level: int, inner: Trace): Trace {
    Cat(Opened(level), Cat(inner, Closed(level)))
  }

  function Opened(level: int): Trace {
    Trace([], [Indentation(level + 1) + BeginScopeMarker])
  }

  function Closed(level: int): Trace {
    Trace([], [Indentation(level + 1) + EndScopeMarker])
  }

  function TypeTrace(t: Type, m: Margin): Trace
  {
    Printed(m, "Type: " + TypeName(t.ty))
  }

  function IdTrace(id: ID, m: Margin): Trace
  {
    Printed(m, "ID: " + id.value)
  }

  function ExpTrace(e: Exp, m: Margin, level: int): Trace
    decreases e, 0
  {
    match e
    case Num(_, v) => Printed(m, "Num: " + IntToString(v))
    case NumB(_, v) => Printed(m, "NumB: " + IntToString(v))
    case String(_, s) => Printed(m, "String: " + s)
    case Bool(_, b) => Printed(m, "Bool: " + if b then "true" else "false")
    case IdExp(id) => IdTrace(id, m)
    case BinOp(_, l, r, op) =>
      Cat(Printed(m, "BinOp: " + BinOpSymbol(op)), Cat(ExpTrace(l, m.Enter(false), level), ExpTrace(r, m.Enter(true), level)))
    case RelOp(_, l, r, op) =>
      Cat(Printed(m, "RelOp: " + RelOpSymbol(op)), Cat(ExpTrace(l, m.Enter(false), level), ExpTrace(r, m.Enter(true), level)))
    case Not(_, x) => Cat(Printed(m, "Not"), ExpTrace(x, m.Enter(true), level))
    case And(_, l, r) => Cat(Printed(m, "And"), Cat(ExpTrace(l, m.Enter(false), level), ExpTrace(r, m.Enter(true), level)))
    case Or(_, l, r) => Cat(Printed(m, "Or"), Cat(ExpTrace(l, m.Enter(false), level), ExpTrace(r, m.Enter(true), level)))
    case Cast(_, x, t) => Cat(Printed(m, "Cast"), Cat(ExpTrace(x, m.Enter(false), level), TypeTrace(t, m.Enter(true))))
    case CallExp(c) => CallTrace(c, m, level)
  }

  /** A call prints no line of its own; its name and arguments are visited inside a scope. */
  function CallTrace(c: Call, m: Margin, level: int): Trace
    decreases c, 0
  {
    Bracketed(level, Cat(IdTrace(c.funcId, m.Enter(false)), ExpListTrace(c.args, m.Enter(true), level + 1)))
  }

  function ExpListTrace(l: ExpList, m: Margin, level: int): Trace
    decreases l, 1
  {
    Cat(Printed(m, "ExpList"), ArgumentsFrom(l.exps, 0, m, level))
  }

  /** The arguments `es[|es| - 1]`, ..., `es[i]`, visited in that order: the arguments
      are visited from the last to the first, and the first one, visited last, is the
      last child. */
  function ArgumentsFrom(es: seq<Exp>, i: nat, m: Margin, level: int): Trace
    requires i <= |es|
    decreases es, |es| - i
  {
    if i == |es| then Nothing
    else Cat(ArgumentsFrom(es, i + 1, m, level), ExpTrace(es[i], m.Enter(i == 0), level))
  }

  /** A block prints no line of its own; its statements are visited inside a scope. */
  function StatementsTrace(b: Statements, m: Margin, level: int): Trace
    decreases b, 1
  {
    Bracketed(level, StatementsUpTo(b.statements, |b.statements|, m, level + 1))
  }

  /** The statements `ss[0]`, ..., `ss[i - 1]`, visited in that order; the final
      statement of the block is the last child. */
  function StatementsUpTo(ss: seq<Statement>, i: nat, m: Margin, level: int): Trace
    requires i <= |ss|
    decreases ss, i
  {
    if i == 0 then Nothing
    else Cat(StatementsUpTo(ss, i - 1, m, level), StatementTrace(ss[i - 1], m.Enter(i == |ss|), level))
  }

  function StatementTrace(s: Statement, m: Margin, level: int): Trace
    decreases s, 0
  {
    match s
    case Block(b) => StatementsTrace(b, m, level)
    case Break(_) => Printed(m, "Break")
    case Continue(_) => Printed(m, "Continue")
    case Return(_, x) =>
      Cat(Printed(m, "Return"), OptionalExpTrace(x, m, level))
    case If(_, c, t, o) =>
      Bracketed(level, Cat(ExpTrace(c, m.Enter(false), level + 1),
                       Cat(StatementTrace(t, m.Enter(o.None?), level + 1), ElseTrace(o, m, level + 1))))
    case While(_, c, body) =>
      Bracketed(level, Cat(ExpTrace(c, m.Enter(false), level + 1), StatementTrace(body, m.Enter(true), level + 1)))
    case VarDecl(_, id, t, init) =>
      Cat(Printed(m, "VarDecl"),
          Cat(IdTrace(id, m.Enter(false)),
              Cat(TypeTrace(t, m.Enter(init.None?)),
                  OptionalExpTrace(init, m, level))))
    case Assign(_, id, x) => Cat(Printed(m, "Assign"), Cat(IdTrace(id, m.Enter(false)), ExpTrace(x, m.Enter(true), level)))
    case CallStmt(c) => CallTrace(c, m, level)
  }

  /** An expression that may be absent: when present it is the last child. */
  function OptionalExpTrace(x: Option<Exp>, m: Margin, level: int): Trace
  {
    if x.Some? then ExpTrace(x.value, m.Enter(true), level) else Nothing
  }

  /** The `else` branch of an `if`, when there is one, is its last child. */
  function ElseTrace(o: Option<Statement>, m: Margin, level: int): Trace
    decreases o, 1
  {
    if o.Some? then StatementTrace(o.value, m.Enter(true), level) else Nothing
  }

  /** The trace of an `if`, case by case. */
  lemma IfShape(s: Statement, m: Margin, level: int)
    requires s.If?
    ensures StatementTrace(s, m, level)
         == Bracketed(level, Cat(ExpTrace(s.condition, m.Enter(false), level + 1),
                                 Cat(StatementTrace(s.thenBranch, m.Enter(s.otherwise.None?), level + 1),
                                     ElseTrace(s.otherwise, m, level + 1))))
  {
  }

  function FormalTrace(f: Formal, m: Margin): Trace
  {
    Cat(Printed(m, "Formal"), Cat(IdTrace(f.id, m.Enter(false)), TypeTrace(f.formalType, m.Enter(true))))
  }

  function FormalsTrace(fs: Formals, m: Margin): Trace
  {
    Cat(Printed(m, "Formals"), FormalsFrom(fs.formals, 0, m))
  }

  /** The parameters `fs[|fs| - 1]`, ..., `fs[i]`, visited in that order; the first
      parameter is the last child. */
  function FormalsFrom(fs: seq<Formal>, i: nat, m: Margin): Trace
    requires i <= |fs|
    decreases |fs| - i
  {
    if i == |fs| then Nothing
    else Cat(FormalsFrom(fs, i + 1, m), FormalTrace(fs[i], m.Enter(i == 0)))
  }

  function FuncDeclTrace(f: FuncDecl, m: Margin, level: int): Trace
  {
    Cat(Printed(m, "FuncDecl"),
        Cat(IdTrace(f.id, m.Enter(false)),
            Cat(TypeTrace(f.returnType, m.Enter(false)),
                Cat(FormalsTrace(f.formals, m.Enter(false)),
                    StatementsTrace(f.body, m.Enter(true), level)))))
  }

  function FuncsTrace(p: Funcs, m: Margin, level: int): Trace
  {
    Cat(Printed(m, "Funcs"), FuncsUpTo(p.funcs, |p.funcs|, m, level))
  }

  /** The functions `fs[0]`, ..., `fs[i - 1]`, visited in that order; the final one
      is the last child. */
  function FuncsUpTo(fs: seq<FuncDecl>, i: nat, m: Margin, level: int): Trace
    requires i <= |fs|
  {
    if i == 0 then Nothing
    else Cat(FuncsUpTo(fs, i - 1, m, level), FuncDeclTrace(fs[i - 1], m.Enter(i == |fs|), level))
  }

  /** Reads scope-printer lines written from level `base` with `depth` scopes open:
      a begin marker one level deeper opens a scope, an end marker at the current
      level closes the innermost one. The number of scopes left open, or None when a
      line is neither or would close a scope opened before `base`. */
  function Walk(lines: seq<string>, base: int, depth: nat): Option<nat>
    decreases |lines|
  {
    if |lines| == 0 then Some(depth)
    else if lines[0] == Indentation(base + depth + 1) + BeginScopeMarker then Walk(lines[1..], base, depth + 1)
    else if depth > 0 && lines[0] == Indentation(base + depth) + EndScopeMarker then Walk(lines[1..], base, depth - 1)
    else None
  }

  /** What a visit made at margin `m` (whose gutter is `lead`) and printer level
      `level` is expected to have drawn: every standard-output line inside the
      gutter, and scope-printer lines that close, each at its own indentation, every
      scope they open. */
  predicate Drawn(t: Trace, lead: string, level: int) {
    && (forall k :: 0 <= k < |t.out| ==> lead <= t.out[k])
    && Walk(t.scopes, level, 0) == Some(0)
  }

  /** A begin marker and an end marker are never the same line. */
  lemma MarkersDiffer(a: int, b: int)
    ensures Indentation(a) + BeginScopeMarker != Indentation(b) + EndScopeMarker
  {
    var x := Indentation(a) + BeginScopeMarker;
    var y := Indentation(b) + EndScopeMarker;
    if |x| == |y| {
      var p := |Indentation(a)|;
      assert x[p] == '-';
      assert y[p] == ' ';
    }
  }

  lemma {:induction false} WalkAppend(a: seq<string>, b: seq<string>, base: int, depth: nat)
    ensures Walk(a + b, base, depth) == if Walk(a, base, depth).Some? then Walk(b, base, Walk(a, base, depth).value) else None
    decreases |a|
  {
    if |a| > 0 {
      assert (a + b)[0] == a[0];
      assert (a + b)[1..] == a[1..] + b;
      if a[0] == Indentation(base + depth + 1) + BeginScopeMarker {
        WalkAppend(a[1..], b, base, depth + 1);
      } else if depth > 0 && a[0] == Indentation(base + depth) + EndScopeMarker {
        WalkAppend(a[1..], b, base, depth - 1);
      }
    } else {
      assert a + b == b;
    }
  }

  /** Lines that close what they open from a level close it from that level with
      scopes already open below. */
  lemma {:induction false} WalkDeeper(lines: seq<string>, base: int, open: nat, depth: nat)
    requires Walk(lines, base + open, depth).Some?
    ensures Walk(lines, base, open + depth) == Some(Walk(lines, base + open, depth).value + open)
    decreases |lines|
  {
    if |lines| > 0 {
      if lines[0] == Indentation(base + open + depth + 1) + BeginScopeMarker {
        WalkDeeper(lines[1..], base, open, depth + 1);
      } else {
        WalkDeeper(lines[1..], base, open, depth - 1);
      }
    }
  }

  lemma DrawnCat(a: Trace, b: Trace, lead: string, level: int)
    requires Drawn(a, lead, level) && Drawn(b, lead, level)
    ensures Drawn(Cat(a, b), lead, level)
  {
    WalkAppend(a.scopes, b.scopes, level, 0);
    var c := Cat(a, b);
    forall k | 0 <= k < |c.out|
      ensures lead <= c.out[k]
    {
      if k < |a.out| {
        assert c.out[k] == a.out[k];
      } else {
        assert c.out[k] == b.out[k - |a.out|];
      }
    }
  }

  /** A begin/end pair around lines drawn one level deeper. */
  lemma DrawnBracketed(inner: Trace, lead: string, level: int)
    requires Drawn(inner, lead, level + 1)
    ensures Drawn(Bracketed(level, inner), lead, level)
  {
    var begin := Indentation(level + 1) + BeginScopeMarker;
    var end := Indentation(level + 1) + EndScopeMarker;
    var t := Bracketed(level, inner);
    assert t.out == inner.out;
    assert t.scopes == [begin] + (inner.scopes + [end]);
    WalkDeeper(inner.scopes, level, 1, 0);
    WalkAppend(inner.scopes, [end], level, 1);
    MarkersDiffer(level + 2, level + 1);
    assert Walk([end], level, 1) == Some(0);
    assert Walk(t.scopes, level, 0) == Walk(inner.scopes + [end], level, 1);
  }

  /** What is drawn inside a child's gutter is inside its parent's. */
  lemma DrawnInChild(t: Trace, m: Margin, last: bool, level: int)
    requires Drawn(t, m.Enter(last).lead, level)
    ensures Drawn(t, m.lead, level)
  {
    forall k | 0 <= k < |t.out|
      ensures m.lead <= t.out[k]
    {
      assert m.lead <= m.Enter(last).lead;
    }
  }

  /** A list visit `x` made of siblings `a` followed by one more child `b`, last or
      not, all drawn in the children's gutter. */
  lemma DrawnSibling(x: Trace, a: Trace, b: Trace, m: Margin, last: bool, level: int)
    requires x == Cat(a, b)
    requires Drawn(a, m.Enter(true).lead, level) && Drawn(b, m.Enter(last).lead, level)
    ensures Drawn(x, m.Enter(true).lead, level)
  {
    assert m.Enter(last).lead == m.Enter(true).lead;
    DrawnCat(a, b, m.Enter(true).lead, level);
  }

  lemma DrawnPrinted(m: Margin, text: string, level: int)
    ensures Drawn(Printed(m, text), m.lead, level)
  {
    assert Printed(m, text).out[0] == m.lead + (m.prefix + text);
  }

  /** A node that prints one line and then visits the children drawn in `kids`. */
  lemma DrawnNode(m: Margin, text: string, kids: Trace, level: int)
    requires Drawn(kids, m.Enter(true).lead, level)
    ensures Drawn(Cat(Printed(m, text), kids), m.lead, level)
  {
    DrawnPrinted(m, text, level);
    DrawnInChild(kids, m, true, level);
    DrawnCat(Printed(m, text), kids, m.lead, level);
  }

  lemma DrawnNothing(lead: string, level: int)
    ensures Drawn(Nothing, lead, level)
  {
  }

  lemma DrawnType(t: Type, m: Margin, level: int)
    ensures Drawn(TypeTrace(t, m), m.lead, level)
  {
    DrawnPrinted(m, "Type: " + TypeName(t.ty), level);
  }

  lemma DrawnId(id: ID, m: Margin, level: int)
    ensures Drawn(IdTrace(id, m), m.lead, level)
  {
    DrawnPrinted(m, "ID: " + id.value, level);
  }

  /** Two children, both one level into the gutter. */
  lemma DrawnPair(a: Trace, b: Trace, m: Margin, level: int)
    requires Drawn(a, m.Enter(false).lead, level) && Drawn(b, m.Enter(true).lead, level)
    ensures Drawn(Cat(a, b), m.Enter(true).lead, level)
  {
    DrawnCat(a, b, m.Enter(true).lead, level);
  }

  /** Every expression is drawn inside its gutter, and every call in it brackets its
      arguments with matching scope markers. */
  lemma {:induction false} ExpDrawn(e: Exp, m: Margin, level: int)
    ensures Drawn(ExpTrace(e, m, level), m.lead, level)
    decreases e, 0
  {
    match e
    case Num(_, v) => DrawnPrinted(m, "Num: " + IntToString(v), level);
    case NumB(_, v) => DrawnPrinted(m, "NumB: " + IntToString(v), level);
    case String(_, s) => DrawnPrinted(m, "String: " + s, level);
    case Bool(_, b) => DrawnPrinted(m, "Bool: " + if b then "true" else "false", level);
    case IdExp(id) => DrawnId(id, m, level);
    case BinOp(_, l, r, op) =>
      ExpDrawn(l, m.Enter(false), level);
      ExpDrawn(r, m.Enter(true), level);
      DrawnPair(ExpTrace(l, m.Enter(false), level), ExpTrace(r, m.Enter(true), level), m, level);
      DrawnNode(m, "BinOp: " + BinOpSymbol(op), Cat(ExpTrace(l, m.Enter(false), level), ExpTrace(r, m.Enter(true), level)), level);
    case RelOp(_, l, r, op) =>
      ExpDrawn(l, m.Enter(false), level);
      ExpDrawn(r, m.Enter(true), level);
      DrawnPair(ExpTrace(l, m.Enter(false), level), ExpTrace(r, m.Enter(true), level), m, level);
      DrawnNode(m, "RelOp: " + RelOpSymbol(op), Cat(ExpTrace(l, m.Enter(false), level), ExpTrace(r, m.Enter(true), level)), level);
    case Not(_, x) =>
      ExpDrawn(x, m.Enter(true), level);
      DrawnNode(m, "Not", ExpTrace(x, m.Enter(true), level), level);
    case And(_, l, r) =>
      ExpDrawn(l, m.Enter(false), level);
      ExpDrawn(r, m.Enter(true), level);
      DrawnPair(ExpTrace(l, m.Enter(false), level), ExpTrace(r, m.Enter(true), level), m, level);
      DrawnNode(m, "And", Cat(ExpTrace(l, m.Enter(false), level), ExpTrace(r, m.Enter(true), level)), level);
    case Or(_, l, r) =>
      ExpDrawn(l, m.Enter(false), level);
      ExpDrawn(r, m.Enter(true), level);
      DrawnPair(ExpTrace(l, m.Enter(false), level), ExpTrace(r, m.Enter(true), level), m, level);
      DrawnNode(m, "Or", Cat(ExpTrace(l, m.Enter(false), level), ExpTrace(r, m.Enter(true), level)), level);
    case Cast(_, x, t) =>
      ExpDrawn(x, m.Enter(false), level);
      DrawnType(t, m.Enter(true), level);
      DrawnPair(ExpTrace(x, m.Enter(false), level), TypeTrace(t, m.Enter(true)), m, level);
      DrawnNode(m, "Cast", Cat(ExpTrace(x, m.Enter(false), level), TypeTrace(t, m.Enter(true))), level);
    case CallExp(c) => CallDrawn(c, m, level);
  }

  lemma {:induction false} CallDrawn(c: Call, m: Margin, level: int)
    ensures Drawn(CallTrace(c, m, level), m.lead, level)
    decreases c, 0
  {
    DrawnId(c.funcId, m.Enter(false), level + 1);
    ExpListDrawn(c.args, m.Enter(true), level + 1);
    DrawnPair(IdTrace(c.funcId, m.Enter(false)), ExpListTrace(c.args, m.Enter(true), level + 1), m, level + 1);
    DrawnInChild(Cat(IdTrace(c.funcId, m.Enter(false)), ExpListTrace(c.args, m.Enter(true), level + 1)), m, true, level + 1);
    DrawnBracketed(Cat(IdTrace(c.funcId, m.Enter(false)), ExpListTrace(c.args, m.Enter(true), level + 1)), m.lead, level);
  }

  lemma {:induction false} ExpListDrawn(l: ExpList, m: Margin, level: int)
    ensures Drawn(ExpListTrace(l, m, level), m.lead, level)
    decreases l, 1
  {
    ArgumentsDrawn(l.exps, 0, m, level);
    DrawnNode(m, "ExpList", ArgumentsFrom(l.exps, 0, m, level), level);
  }

  lemma {:induction false} ArgumentsDrawn(es: seq<Exp>, i: nat, m: Margin, level: int)
    requires i <= |es|
    ensures Drawn(ArgumentsFrom(es, i, m, level), m.Enter(true).lead, level)
    decreases es, |es| - i
  {
    if i < |es| {
      ArgumentsDrawn(es, i + 1, m, level);
      ExpDrawn(es[i], m.Enter(i == 0), level);
      DrawnSibling(ArgumentsFrom(es, i, m, level), ArgumentsFrom(es, i + 1, m, level), ExpTrace(es[i], m.Enter(i == 0), level), m, i == 0, level);
    }
  }

  /** Every statement is drawn inside its gutter, and the scope markers of its
      blocks, conditionals, loops and calls match. */
  lemma {:induction false} StatementDrawn(s: Statement, m: Margin, level: int)
    ensures Drawn(StatementTrace(s, m, level), m.lead, level)
    decreases s, 0
  {
    match s
    case Block(b) => StatementsDrawn(b, m, level);
    case Break(_) => DrawnPrinted(m, "Break", level);
    case Continue(_) => DrawnPrinted(m, "Continue", level);
    case Return(_, x) =>
      OptionalExpDrawn(x, m, level);
      DrawnNode(m, "Return", OptionalExpTrace(x, m, level), level);
    case If(_, c, t, o) => IfDrawn(s, m, level);
    case While(_, c, body) =>
      ExpDrawn(c, m.Enter(false), level + 1);
      StatementDrawn(body, m.Enter(true), level + 1);
      DrawnPair(ExpTrace(c, m.Enter(false), level + 1), StatementTrace(body, m.Enter(true), level + 1), m, level + 1);
      DrawnInChild(Cat(ExpTrace(c, m.Enter(false), level + 1), StatementTrace(body, m.Enter(true), level + 1)), m, true, level + 1);
      DrawnBracketed(Cat(ExpTrace(c, m.Enter(false), level + 1), StatementTrace(body, m.Enter(true), level + 1)), m.lead, level);
    case VarDecl(_, id, t, init) =>
      DrawnId(id, m.Enter(false), level);
      DrawnType(t, m.Enter(init.None?), level);
      OptionalExpDrawn(init, m, level);
      DrawnCat(TypeTrace(t, m.Enter(init.None?)), OptionalExpTrace(init, m, level), m.Enter(true).lead, level);
      DrawnPair(IdTrace(id, m.Enter(false)), Cat(TypeTrace(t, m.Enter(init.None?)), OptionalExpTrace(init, m, level)), m, level);
      DrawnNode(m, "VarDecl", Cat(IdTrace(id, m.Enter(false)), Cat(TypeTrace(t, m.Enter(init.None?)), OptionalExpTrace(init, m, level))), level);
    case Assign(_, id, x) =>
      DrawnId(id, m.Enter(false), level);
      ExpDrawn(x, m.Enter(true), level);
      DrawnPair(IdTrace(id, m.Enter(false)), ExpTrace(x, m.Enter(true), level), m, level);
      DrawnNode(m, "Assign", Cat(IdTrace(id, m.Enter(false)), ExpTrace(x, m.Enter(true), level)), level);
    case CallStmt(c) => CallDrawn(c, m, level);
  }

  lemma {:induction false} IfDrawn(s: Statement, m: Margin, level: int)
    requires s.If?
    ensures Drawn(StatementTrace(s, m, level), m.lead, level)
    decreases s, 0, 0
  {
    var c := ExpTrace(s.condition, m.Enter(false), level + 1);
    var t := StatementTrace(s.thenBranch, m.Enter(s.otherwise.None?), level + 1);
    var o := ElseTrace(s.otherwise, m, level + 1);
    ExpDrawn(s.condition, m.Enter(false), level + 1);
    StatementDrawn(s.thenBranch, m.Enter(s.otherwise.None?), level + 1);
    ElseDrawn(s.otherwise, m, level + 1);
    DrawnCat(t, o, m.Enter(true).lead, level + 1);
    DrawnPair(c, Cat(t, o), m, level + 1);
    DrawnInChild(Cat(c, Cat(t, o)), m, true, level + 1);
    DrawnBracketed(Cat(c, Cat(t, o)), m.lead, level);
  }

  lemma OptionalExpDrawn(x: Option<Exp>, m: Margin, level: int)
    ensures Drawn(OptionalExpTrace(x, m, level), m.Enter(true).lead, level)
  {
    if x.Some? {
      ExpDrawn(x.value, m.Enter(true), level);
    }
  }

  lemma {:induction false} ElseDrawn(o: Option<Statement>, m: Margin, level: int)
    ensures Drawn(ElseTrace(o, m, level), m.Enter(true).lead, level)
    decreases o, 1
  {
    if o.Some? {
      StatementDrawn(o.value, m.Enter(true), level);
    }
  }

  lemma {:induction false} StatementsDrawn(b: Statements, m: Margin, level: int)
    ensures Drawn(StatementsTrace(b, m, level), m.lead, level)
    decreases b, 1
  {
    StatementsUpToDrawn(b.statements, |b.statements|, m, level + 1);
    DrawnInChild(StatementsUpTo(b.statements, |b.statements|, m, level + 1), m, true, level + 1);
    DrawnBracketed(StatementsUpTo(b.statements, |b.statements|, m, level + 1), m.lead, level);
  }

  lemma {:induction false} StatementsUpToDrawn(ss: seq<Statement>, i: nat, m: Margin, level: int)
    requires i <= |ss|
    ensures Drawn(StatementsUpTo(ss, i, m, level), m.Enter(true).lead, level)
    decreases ss, i
  {
    if i > 0 {
      StatementsUpToDrawn(ss, i - 1, m, level);
      StatementDrawn(ss[i - 1], m.Enter(i == |ss|), level);
      DrawnSibling(StatementsUpTo(ss, i, m, level), StatementsUpTo(ss, i - 1, m, level), StatementTrace(ss[i - 1], m.Enter(i == |ss|), level), m, i == |ss|, level);
    }
  }

  lemma FormalDrawn(f: Formal, m: Margin, level: int)
    ensures Drawn(FormalTrace(f, m), m.lead, level)
    ensures FormalTrace(f, m).scopes == []
  {
    DrawnId(f.id, m.Enter(false), level);
    DrawnType(f.formalType, m.Enter(true), level);
    DrawnPair(IdTrace(f.id, m.Enter(false)), TypeTrace(f.formalType, m.Enter(true)), m, level);
    DrawnNode(m, "Formal", Cat(IdTrace(f.id, m.Enter(false)), TypeTrace(f.formalType, m.Enter(true))), level);
  }

  /** A parameter writes three lines, the first its `Formal` heading, and no scope line. */
  lemma FormalLines(f: Formal, m: Margin)
    ensures |FormalTrace(f, m).out| == 3 && FormalTrace(f, m).out[0] == m.Line("Formal")
    ensures FormalTrace(f, m).scopes == []
  {
  }

  /** The parameters from `fs[i]` on write three lines each and no scope line. */
  lemma {:induction false} FormalsFromLength(fs: seq<Formal>, i: nat, m: Margin)
    requires i <= |fs|
    ensures |FormalsFrom(fs, i, m).out| == 3 * (|fs| - i) && FormalsFrom(fs, i, m).scopes == []
    decreases |fs| - i
  {
    if i < |fs| {
      FormalsFromLength(fs, i + 1, m);
      FormalLines(fs[i], m.Enter(i == 0));
      assert FormalsFrom(fs, i, m) == Cat(FormalsFrom(fs, i + 1, m), FormalTrace(fs[i], m.Enter(i == 0)));
    }
  }

  /** Where parameter `fs[j]` starts: its `Formal` line comes after the lines of the
      parameters visited before it, and only the first parameter, visited last, gets
      the last-child prefix. */
  lemma {:induction false} ParameterHeading(fs: seq<Formal>, i: nat, m: Margin, j: nat)
    requires i <= j < |fs|
    ensures |FormalsFrom(fs, i, m).out| == 3 * (|fs| - i)
    ensures FormalsFrom(fs, i, m).out[3 * (|fs| - 1 - j)] == m.Enter(j == 0).Line("Formal")
    decreases |fs| - i
  {
    var rest := FormalsFrom(fs, i + 1, m);
    var here := FormalTrace(fs[i], m.Enter(i == 0));
    assert FormalsFrom(fs, i, m) == Cat(rest, here);
    FormalsFromLength(fs, i + 1, m);
    FormalLines(fs[i], m.Enter(i == 0));
    if i < j {
      ParameterHeading(fs, i + 1, m, j);
      assert Cat(rest, here).out[3 * (|fs| - 1 - j)] == rest.out[3 * (|fs| - 1 - j)];
    } else {
      assert Cat(rest, here).out[3 * (|fs| - 1 - j)] == here.out[0];
    }
  }

  /** In a variable declaration the type is the last child exactly when there is no
      initializer. */
  lemma VarDeclTypeLine(s: Statement, m: Margin, level: int)
    requires s.VarDecl?
    ensures |StatementTrace(s, m, level).out| >= 3
    ensures StatementTrace(s, m, level).out[2] == m.Enter(s.initExp.None?).Line("Type: " + TypeName(s.varType.ty))
  {
  }

  lemma {:induction false} FormalsFromDrawn(fs: seq<Formal>, i: nat, m: Margin, level: int)
    requires i <= |fs|
    ensures Drawn(FormalsFrom(fs, i, m), m.Enter(true).lead, level)
    decreases |fs| - i
  {
    if i < |fs| {
      FormalsFromDrawn(fs, i + 1, m, level);
      FormalDrawn(fs[i], m.Enter(i == 0), level);
      DrawnSibling(FormalsFrom(fs, i, m), FormalsFrom(fs, i + 1, m), FormalTrace(fs[i], m.Enter(i == 0)), m, i == 0, level);
    }
  }

  lemma FuncDeclDrawn(f: FuncDecl, m: Margin, level: int)
    ensures Drawn(FuncDeclTrace(f, m, level), m.lead, level)
  {
    var id := IdTrace(f.id, m.Enter(false));
    var ty := TypeTrace(f.returnType, m.Enter(false));
    var ps := FormalsTrace(f.formals, m.Enter(false));
    var body := StatementsTrace(f.body, m.Enter(true), level);
    DrawnId(f.id, m.Enter(false), level);
    DrawnType(f.returnType, m.Enter(false), level);
    FormalsFromDrawn(f.formals.formals, 0, m.Enter(false), level);
    DrawnNode(m.Enter(false), "Formals", FormalsFrom(f.formals.formals, 0, m.Enter(false)), level);
    StatementsDrawn(f.body, m.Enter(true), level);
    DrawnCat(ps, body, m.Enter(true).lead, level);
    DrawnCat(ty, Cat(ps, body), m.Enter(true).lead, level);
    DrawnCat(id, Cat(ty, Cat(ps, body)), m.Enter(true).lead, level);
    DrawnNode(m, "FuncDecl", Cat(id, Cat(ty, Cat(ps, body))), level);
  }

  lemma {:induction false} FuncsUpToDrawn(fs: seq<FuncDecl>, i: nat, m: Margin, level: int)
    requires i <= |fs|
    ensures Drawn(FuncsUpTo(fs, i, m, level), m.Enter(true).lead, level)
  {
    if i > 0 {
      FuncsUpToDrawn(fs, i - 1, m, level);
      FuncDeclDrawn(fs[i - 1], m.Enter(i == |fs|), level);
      DrawnSibling(FuncsUpTo(fs, i, m, level), FuncsUpTo(fs, i - 1, m, level), FuncDeclTrace(fs[i - 1], m.Enter(i == |fs|), level), m, i == |fs|, level);
    }
  }

  /** The whole program is drawn inside the root's gutter, and the scope printer's
      lines written for it close every scope they open, each at the indentation it
      was opened with. */
  lemma ProgramDrawn(p: Funcs, m: Margin, level: int)
    ensures Drawn(FuncsTrace(p, m, level), m.lead, level)
  {
    FuncsUpToDrawn(p.funcs, |p.funcs|, m, level);
    DrawnNode(m, "Funcs", FuncsUpTo(p.funcs, |p.funcs|, m, level), level);
  }

  /** `a` is written first when `b` is: both of its line lists start `b`'s. */
  predicate Starts(a: Trace, b: Trace) {
    a.out <= b.out && a.scopes <= b.scopes
  }

  lemma StartsCat(a: Trace, b: Trace, c: Trace)
    requires Starts(a, b)
    ensures Starts(a, Cat(b, c))
  {
  }

  /** Within a block, the lines of statement `ss[j]` come right after those of the
      statements before it, whatever follows, and it is drawn as the last child
      exactly when it is the final statement. */
  lemma {:induction false} StatementPlace(ss: seq<Statement>, j: nat, i: nat, m: Margin, level: int)
    requires j < i <= |ss|
    ensures Starts(Cat(StatementsUpTo(ss, j, m, level), StatementTrace(ss[j], m.Enter(j + 1 == |ss|), level)),
                   StatementsUpTo(ss, i, m, level))
    decreases i
  {
    if j + 1 < i {
      StatementPlace(ss, j, i - 1, m, level);
      StartsCat(Cat(StatementsUpTo(ss, j, m, level), StatementTrace(ss[j], m.Enter(j + 1 == |ss|), level)),
                StatementsUpTo(ss, i - 1, m, level), StatementTrace(ss[i - 1], m.Enter(i == |ss|), level));
    }
  }

  /** Within an argument list, the lines of argument `es[j]` come right after those of
      the arguments after it (visited before it), and it is drawn as the last child
      exactly when it is the first argument. */
  lemma {:induction false} ArgumentPlace(es: seq<Exp>, i: nat, j: nat, m: Margin, level: int)
    requires i <= j < |es|
    ensures Starts(Cat(ArgumentsFrom(es, j + 1, m, level), ExpTrace(es[j], m.Enter(j == 0), level)),
                   ArgumentsFrom(es, i, m, level))
    decreases j - i
  {
    if i < j {
      ArgumentPlace(es, i + 1, j, m, level);
      StartsCat(Cat(ArgumentsFrom(es, j + 1, m, level), ExpTrace(es[j], m.Enter(j == 0), level)),
                ArgumentsFrom(es, i + 1, m, level), ExpTrace(es[i], m.Enter(i == 0), level));
    }
  }

  /** A function declaration's first line is its `FuncDecl` heading. */
  lemma FuncDeclFirstLine(f: FuncDecl, m: Margin, level: int)
    ensures |FuncDeclTrace(f, m, level).out| > 0 && FuncDeclTrace(f, m, level).out[0] == m.Line("FuncDecl")
  {
  }

  /** The lines written for the first `j` functions start those written for the
      first `i`, for `j <= i`: a later function never changes what came before. */
  lemma {:induction false} FunctionsGrow(fs: seq<FuncDecl>, j: nat, i: nat, m: Margin, level: int)
    requires j <= i <= |fs|
    ensures Starts(FuncsUpTo(fs, j, m, level), FuncsUpTo(fs, i, m, level))
    decreases i
  {
    if j < i {
      var earlier := FuncsUpTo(fs, i - 1, m, level);
      FunctionsGrow(fs, j, i - 1, m, level);
      StartsCat(FuncsUpTo(fs, j, m, level), earlier, FuncDeclTrace(fs[i - 1], m.Enter(i == |fs|), level));
    }
  }

  /** So the `FuncDecl` line of `fs[j]` follows the lines of the functions before it,
      and it is drawn with the last-child margin exactly when `fs[j]` is the final
      function. */
  lemma FunctionHeading(fs: seq<FuncDecl>, j: nat, m: Margin, level: int)
    requires j < |fs|
    ensures |FuncsUpTo(fs, j, m, level).out| < |FuncsUpTo(fs, |fs|, m, level).out|
    ensures FuncsUpTo(fs, |fs|, m, level).out[|FuncsUpTo(fs, j, m, level).out|] == m.Enter(j + 1 == |fs|).Line("FuncDecl")
  {
    var before := FuncsUpTo(fs, j, m, level);
    var here := FuncDeclTrace(fs[j], m.Enter(j + 1 == |fs|), level);
    FunctionsGrow(fs, j + 1, |fs|, m, level);
    assert FuncsUpTo(fs, j + 1, m, level) == Cat(before, here);
    FuncDeclFirstLine(fs[j], m.Enter(j + 1 == |fs|), level);
    assert (before.out + here.out)[|before.out|] == here.out[0];
  }

  /** The visitor's stacks, the printer's level and globals and the symbol table. */
  datatype Frame = Frame(indents: seq<string>, prefixes: seq<string>, level: int, globals: seq<string>, table: TableState)

  /** The visitor: the indentation and prefix stacks of the drawing, the lines it has
      written to standard output, and the scope printer and symbol table it owns. */
  class SemanticVisitor {
    var indents: seq<string>
    var prefixes: seq<string>
    var out: seq<string>
    const printer: ScopePrinter
    const symTab: SymbolTable

    function Stacks(): Margin
      requires |indents| > 0 && |prefixes| > 0
      reads this
    {
      Margin(Concat(indents[..|indents| - 1]), indents[|indents| - 1], prefixes[|prefixes| - 1])
    }

    /** Everything written so far: standard output and the printer's buffer. */
    function Written(): Trace
      reads this, printer
    {
      Trace(out, printer.buffer)
    }

    /** Both stacks always hold the root's entry. */
    predicate Valid()
      reads this
    {
      |indents| > 0 && |prefixes| > 0
    }

    /** What every visit promises: it appended `t` to standard output and to the
        printer's buffer, and left both stacks, the printer's level and globals and
        the symbol table as they were. */
    twostate predicate Appended(new t: Trace)
      reads this, printer, symTab
    {
      Kept() == old(Kept()) && Written() == Cat(old(Written()), t)
    }

    /** The part of the state that a visit leaves as it found it. */
    function Kept(): Frame
      reads this, printer, symTab
    {
      Frame(indents, prefixes, printer.indentLevel, printer.globalsBuffer, symTab.Model())
    }

    constructor ()
      ensures Valid() && fresh(printer) && fresh(symTab)
      ensures indents == [LastChildIndent] && prefixes == [LastChildPrefix] && out == []
      ensures Stacks() == Margin("", LastChildIndent, LastChildPrefix)
      ensures printer.State() == PrinterState([], [], 0)
      ensures symTab.Model() == InitialTable()
    {
      indents := [LastChildIndent];
      prefixes := [LastChildPrefix];
      out := [];
      printer := new ScopePrinter();
      symTab := new SymbolTable();
    }

    /** `print_indented`: writes every indentation string but the last, then the
        innermost prefix and the text, as one line. */
    method PrintIndented(text: string)
      requires |indents| > 0 && |prefixes| > 0
      modifies this
      ensures out == old(out) + [old(Stacks()).Line(text)]
      ensures indents == old(indents) && prefixes == old(prefixes)
    {
      var line := "";
      var i := 0;
      while i < |indents| - 1
        invariant 0 <= i <= |indents| - 1
        invariant line == Concat(indents[..i])
        invariant indents == old(indents) && prefixes == old(prefixes) && out == old(out)
      {
        assert indents[..i + 1][..i] == indents[..i];
        line := line + indents[i];
        i := i + 1;
      }
      out := out + [line + prefixes[|prefixes| - 1] + text];
    }

    /** `print_indented` as a visit: one line, nothing on the printer. */
    method PrintNode(text: string)
      requires Valid()
      modifies this
      ensures Appended(Printed(old(Stacks()), text))
    {
      PrintIndented(text);
    }

    method EnterChild()
      requires |indents| > 0 && |prefixes| > 0
      modifies this
      ensures indents == old(indents) + [ChildIndent] && prefixes == old(prefixes) + [ChildPrefix]
      ensures Stacks() == old(Stacks()).Enter(false) && out == old(out)
    {
      indents := indents + [ChildIndent];
      prefixes := prefixes + [ChildPrefix];
    }

    method EnterLastChild()
      requires |indents| > 0 && |prefixes| > 0
      modifies this
      ensures indents == old(indents) + [LastChildIndent] && prefixes == old(prefixes) + [LastChildPrefix]
      ensures Stacks() == old(Stacks()).Enter(true) && out == old(out)
    {
      indents := indents + [LastChildIndent];
      prefixes := prefixes + [LastChildPrefix];
    }

    /** `enter_last_child()` when `last` holds, `enter_child()` otherwise. */
    method Enter(last: bool)
      requires |indents| > 0 && |prefixes| > 0
      modifies this
      ensures indents == old(indents) + [if last then LastChildIndent else ChildIndent]
      ensures prefixes == old(prefixes) + [if last then LastChildPrefix else ChildPrefix]
      ensures Stacks() == old(Stacks()).Enter(last) && out == old(out)
    {
      if last {
        EnterLastChild();
      } else {
        EnterChild();
      }
    }

    method LeaveChild()
      requires |indents| > 0 && |prefixes| > 0
      modifies this
      ensures indents == old(indents)[..|old(indents)| - 1] && prefixes == old(prefixes)[..|old(prefixes)| - 1]
      ensures out == old(out)
    {
      indents := indents[..|indents| - 1];
      prefixes := prefixes[..|prefixes| - 1];
    }

    /** `printer.beginScope()` then `symTab.beginScope()`. */
    method OpenScope()
      requires Valid()
      modifies printer, symTab
      ensures Valid() && indents == old(indents) && prefixes == old(prefixes)
      ensures Written() == Cat(old(Written()), Opened(old(printer.indentLevel)))
      ensures printer.indentLevel == old(printer.indentLevel) + 1
      ensures printer.globalsBuffer == old(printer.globalsBuffer)
      ensures symTab.Model() == Begin(old(symTab.Model()))
    {
      printer.BeginScope();
      symTab.BeginScope();
    }

    /** `printer.endScope()` then `symTab.endScope()`. */
    method CloseScope()
      requires Valid()
      modifies printer, symTab
      ensures Valid() && indents == old(indents) && prefixes == old(prefixes)
      ensures Written() == Cat(old(Written()), Closed(old(printer.indentLevel) - 1))
      ensures printer.indentLevel == old(printer.indentLevel) - 1
      ensures printer.globalsBuffer == old(printer.globalsBuffer)
      ensures symTab.Model() == End(old(symTab.Model()))
    {
      printer.EndScope();
      symTab.EndScope();
    }

    method VisitType(t: Type)
      requires Valid()
      modifies this
      ensures Appended(TypeTrace(t, old(Stacks())))
    {
      PrintNode("Type: " + TypeName(t.ty));
    }

    method VisitId(id: ID)
      requires Valid()
      modifies this
      ensures Appended(IdTrace(id, old(Stacks())))
    {
      PrintNode("ID: " + id.value);
    }

    /** `enter_child()` or `enter_last_child()`, `accept`, `leave_child()` on a type. */
    method TypeChild(t: Type, last: bool)
      requires Valid()
      modifies this
      ensures Appended(TypeTrace(t, old(Stacks()).Enter(last)))
    {
      Enter(last);
      VisitType(t);
      LeaveChild();
    }

    method IdChild(id: ID, last: bool)
      requires Valid()
      modifies this
      ensures Appended(IdTrace(id, old(Stacks()).Enter(last)))
    {
      Enter(last);
      VisitId(id);
      LeaveChild();
    }

    method ExpChild(e: Exp, last: bool)
      requires Valid()
      modifies this, printer, symTab
      ensures Appended(ExpTrace(e, old(Stacks()).Enter(last), old(printer.indentLevel)))
      decreases e, 1
    {
      Enter(last);
      VisitExp(e);
      LeaveChild();
    }

    /** A node with one line of its own and two children. */
    method BinaryNode(text: string, l: Exp, r: Exp, ghost e: Exp)
      requires Valid() && l < e && r < e
      modifies this, printer, symTab
      ensures Appended(Cat(Printed(old(Stacks()), text),
                           Cat(ExpTrace(l, old(Stacks()).Enter(false), old(printer.indentLevel)),
                               ExpTrace(r, old(Stacks()).Enter(true), old(printer.indentLevel)))))
      decreases e, 0, 0
    {
      ghost var s0 := Written();
      PrintNode(text);
      ghost var s1 := Written();
      ExpChild(l, false);
      ghost var s2 := Written();
      ExpChild(r, true);
      Regroup3(s0, Printed(old(Stacks()), text), ExpTrace(l, old(Stacks()).Enter(false), old(printer.indentLevel)),
               ExpTrace(r, old(Stacks()).Enter(true), old(printer.indentLevel)));
    }

    method VisitExp(e: Exp)
      requires Valid()
      modifies this, printer, symTab
      ensures Appended(ExpTrace(e, old(Stacks()), old(printer.indentLevel)))
      decreases e, 0, 1
    {
      match e
      case Num(_, _) =>
        VisitLiteral(e);
      case NumB(_, _) =>
        VisitLiteral(e);
      case String(_, _) =>
        VisitLiteral(e);
      case Bool(_, _) =>
        VisitLiteral(e);
      case IdExp(id) =>
        VisitId(id);
      case BinOp(_, l, r, op) =>
        BinaryNode("BinOp: " + BinOpSymbol(op), l, r, e);
      case RelOp(_, l, r, op) =>
        BinaryNode("RelOp: " + RelOpSymbol(op), l, r, e);
      case Not(_, x) =>
        VisitNot(x, e);
      case And(_, l, r) =>
        BinaryNode("And", l, r, e);
      case Or(_, l, r) =>
        BinaryNode("Or", l, r, e);
      case Cast(_, x, t) =>
        VisitCast(x, t, e);
      case CallExp(c) =>
        VisitCall(c);
    }

    /** The literals print one line: `Num`, `NumB`, `String` and `Bool`. */
    method VisitLiteral(e: Exp)
      requires Valid() && (e.Num? || e.NumB? || e.String? || e.Bool?)
      modifies this
      ensures Appended(ExpTrace(e, old(Stacks()), old(printer.indentLevel)))
    {
      match e
      case Num(_, v) =>
        PrintNode("Num: " + IntToString(v));
      case NumB(_, v) =>
        PrintNode("NumB: " + IntToString(v));
      case String(_, s) =>
        PrintNode("String: " + s);
      case Bool(_, b) =>
        PrintNode("Bool: " + if b then "true" else "false");
    }

    method VisitNot(x: Exp, ghost e: Exp)
      requires Valid() && x < e
      modifies this, printer, symTab
      ensures Appended(Cat(Printed(old(Stacks()), "Not"), ExpTrace(x, old(Stacks()).Enter(true), old(printer.indentLevel))))
      decreases e, 0, 0
    {
      ghost var s0 := Written();
      PrintNode("Not");
      ExpChild(x, true);
      CatAssociative(s0, Printed(old(Stacks()), "Not"), ExpTrace(x, old(Stacks()).Enter(true), old(printer.indentLevel)));
    }

    method VisitCast(x: Exp, t: Type, ghost e: Exp)
      requires Valid() && x < e
      modifies this, printer, symTab
      ensures Appended(Cat(Printed(old(Stacks()), "Cast"),
                           Cat(ExpTrace(x, old(Stacks()).Enter(false), old(printer.indentLevel)), TypeTrace(t, old(Stacks()).Enter(true)))))
      decreases e, 0, 0
    {
      ghost var s0 := Written();
      PrintNode("Cast");
      ExpChild(x, false);
      TypeChild(t, true);
      Regroup3(s0, Printed(old(Stacks()), "Cast"), ExpTrace(x, old(Stacks()).Enter(false), old(printer.indentLevel)),
               TypeTrace(t, old(Stacks()).Enter(true)));
    }

    method VisitCall(c: Call)
      requires Valid()
      modifies this, printer, symTab
      ensures Appended(CallTrace(c, old(Stacks()), old(printer.indentLevel)))
      decreases c, 0
    {
      ghost var m := Stacks();
      ghost var level := printer.indentLevel;
      ghost var s0 := Written();
      ghost var outer := symTab.Model();
      OpenScope();
      IdChild(c.funcId, false);
      ExpListChild(c.args, true);
      CloseScope();
      EndsAgreeOnEmptyScope(outer);
      Regroup4(s0, Opened(level), IdTrace(c.funcId, m.Enter(false)), ExpListTrace(c.args, m.Enter(true), level + 1), Closed(level));
      CatAssociative(IdTrace(c.funcId, m.Enter(false)), ExpListTrace(c.args, m.Enter(true), level + 1), Closed(level));
    }

    method ExpListChild(l: ExpList, last: bool)
      requires Valid()
      modifies this, printer, symTab
      ensures Appended(ExpListTrace(l, old(Stacks()).Enter(last), old(printer.indentLevel)))
      decreases l, 1
    {
      Enter(last);
      VisitExpList(l);
      LeaveChild();
    }

    method VisitExpList(l: ExpList)
      requires Valid()
      modifies this, printer, symTab
      ensures Appended(ExpListTrace(l, old(Stacks()), old(printer.indentLevel)))
      decreases l, 0
    {
      ghost var m := Stacks();
      ghost var level := printer.indentLevel;
      ghost var s0 := Written();
      PrintNode("ExpList");
      VisitArguments(l.exps);
      Then(s0, Printed(m, "ExpList"), ArgumentsFrom(l.exps, 0, m, level), Written());
    }

    /** The loop of `visit(ExpList)`: the arguments from the last to the first. */
    method VisitArguments(es: seq<Exp>)
      requires Valid()
      modifies this, printer, symTab
      ensures Appended(ArgumentsFrom(es, 0, old(Stacks()), old(printer.indentLevel)))
      decreases es, 1
    {
      ghost var m := Stacks();
      ghost var level := printer.indentLevel;
      var i := |es|;
      while i > 0
        invariant 0 <= i <= |es|
        invariant Appended(ArgumentsFrom(es, i, m, level))
      {
        ExpChild(es[i - 1], i == 1);
        CatAssociative(old(Written()), ArgumentsFrom(es, i, m, level), ExpTrace(es[i - 1], m.Enter(i == 1), level));
        i := i - 1;
      }
    }

    method StatementsChild(b: Statements, last: bool)
      requires Valid()
      modifies this, printer, symTab
      ensures Appended(StatementsTrace(b, old(Stacks()).Enter(last), old(printer.indentLevel)))
      decreases b, 1
    {
      Enter(last);
      VisitStatements(b);
      LeaveChild();
    }

    /** A block: its statements are visited first to last inside a fresh scope. */
    method VisitStatements(b: Statements)
      requires Valid()
      modifies this, printer, symTab
      ensures Appended(StatementsTrace(b, old(Stacks()), old(printer.indentLevel)))
      decreases b, 0
    {
      ghost var level := printer.indentLevel;
      ghost var outer := symTab.Model();
      OpenScope();
      ghost var m := Stacks();
      VisitBlockBody(b.statements);
      CloseScope();
      EndsAgreeOnEmptyScope(outer);
      Regroup3(old(Written()), Opened(level), StatementsUpTo(b.statements, |b.statements|, m, level + 1), Closed(level));
    }

    /** The loop of `visit(Statements)`: the statements from the first to the last. */
    method VisitBlockBody(ss: seq<Statement>)
      requires Valid()
      modifies this, printer, symTab
      ensures Appended(StatementsUpTo(ss, |ss|, old(Stacks()), old(printer.indentLevel)))
      decreases ss, 1
    {
      ghost var m := Stacks();
      ghost var level := printer.indentLevel;
      for i := 0 to |ss|
        invariant Appended(StatementsUpTo(ss, i, m, level))
      {
        StatementStep(ss, i, m, level, old(Written()));
      }
    }

    /** One turn of the loop over a block: `ss[i]` is visited. */
    method StatementStep(ss: seq<Statement>, i: nat, ghost m: Margin, ghost level: int, ghost w0: Trace)
      requires Valid() && i < |ss| && Stacks() == m && printer.indentLevel == level
      requires Written() == Cat(w0, StatementsUpTo(ss, i, m, level))
      modifies this, printer, symTab
      ensures Valid() && Kept() == old(Kept())
      ensures Written() == Cat(w0, StatementsUpTo(ss, i + 1, m, level))
      decreases ss, 0
    {
      StatementChild(ss[i], i == |ss| - 1);
      CatAssociative(w0, StatementsUpTo(ss, i, m, level), StatementTrace(ss[i], m.Enter(i == |ss| - 1), level));
    }

    method StatementChild(s: Statement, last: bool)
      requires Valid()
      modifies this, printer, symTab
      ensures Appended(StatementTrace(s, old(Stacks()).Enter(last), old(printer.indentLevel)))
      decreases s, 1
    {
      Enter(last);
      VisitStatement(s);
      LeaveChild();
    }

    method VisitStatement(s: Statement)
      requires Valid()
      modifies this, printer, symTab
      ensures Appended(StatementTrace(s, old(Stacks()), old(printer.indentLevel)))
      decreases s, 0, 3
    {
      match s
      case Block(b) =>
        VisitStatements(b);
      case Break(_) =>
        PrintNode("Break");
      case Continue(_) =>
        PrintNode("Continue");
      case Return(_, x) =>
        VisitReturn(s);
      case If(_, c, t, o) =>
        VisitIf(s);
      case While(_, c, body) =>
        VisitWhile(s);
      case VarDecl(_, id, t, init) =>
        VisitVarDecl(s);
      case Assign(_, id, x) =>
        VisitAssign(s);
      case CallStmt(c) =>
        VisitCall(c);
    }

    method VisitReturn(s: Statement)
      requires Valid() && s.Return?
      modifies this, printer, symTab
      ensures Appended(StatementTrace(s, old(Stacks()), old(printer.indentLevel)))
      decreases s, 0, 1
    {
      ghost var s0 := Written();
      PrintNode("Return");
      OptionalExpChild(s.returnExp);
      CatAssociative(s0, Printed(old(Stacks()), "Return"), OptionalExpTrace(s.returnExp, old(Stacks()), old(printer.indentLevel)));
    }

    /** `if (x) { enter_last_child(); x->accept(this); leave_child(); }` */
    method OptionalExpChild(x: Option<Exp>)
      requires Valid()
      modifies this, printer, symTab
      ensures Appended(OptionalExpTrace(x, old(Stacks()), old(printer.indentLevel)))
    {
      if x.Some? {
        ExpChild(x.value, true);
      } else {
        CatNothing(Written());
      }
    }

    /** An `if` prints no line of its own; its condition and branches are visited
        inside a scope. */
    method VisitIf(s: Statement)
      requires Valid() && s.If?
      modifies this, printer, symTab
      ensures Appended(StatementTrace(s, old(Stacks()), old(printer.indentLevel)))
      decreases s, 0, 2
    {
      ghost var m := Stacks();
      ghost var level := printer.indentLevel;
      ghost var s0 := Written();
      ghost var outer := symTab.Model();
      ghost var x := Cat(ExpTrace(s.condition, m.Enter(false), level + 1),
                         Cat(StatementTrace(s.thenBranch, m.Enter(s.otherwise.None?), level + 1),
                             ElseTrace(s.otherwise, m, level + 1)));
      OpenScope();
      IfChildren(s);
      CloseScope();
      EndsAgreeOnEmptyScope(outer);
      Regroup3(s0, Opened(level), x, Closed(level));
      IfShape(s, m, level);
    }

    /** The condition, then the branches. */
    method IfChildren(s: Statement)
      requires Valid() && s.If?
      modifies this, printer, symTab
      ensures Appended(Cat(ExpTrace(s.condition, old(Stacks()).Enter(false), old(printer.indentLevel)),
                           Cat(StatementTrace(s.thenBranch, old(Stacks()).Enter(s.otherwise.None?), old(printer.indentLevel)),
                               ElseTrace(s.otherwise, old(Stacks()), old(printer.indentLevel)))))
      decreases s, 0, 1
    {
      ghost var s0 := Written();
      ExpChild(s.condition, false);
      IfBranches(s);
      CatAssociative(s0, ExpTrace(s.condition, old(Stacks()).Enter(false), old(printer.indentLevel)),
                     Cat(StatementTrace(s.thenBranch, old(Stacks()).Enter(s.otherwise.None?), old(printer.indentLevel)),
                         ElseTrace(s.otherwise, old(Stacks()), old(printer.indentLevel))));
    }

    /** The branches of an `if`: the `then` branch is the last child only when there
        is no `else`. */
    method IfBranches(s: Statement)
      requires Valid() && s.If?
      modifies this, printer, symTab
      ensures Appended(Cat(StatementTrace(s.thenBranch, old(Stacks()).Enter(s.otherwise.None?), old(printer.indentLevel)),
                           ElseTrace(s.otherwise, old(Stacks()), old(printer.indentLevel))))
      decreases s, 0, 0
    {
      ghost var s0 := Written();
      StatementChild(s.thenBranch, s.otherwise.None?);
      ElseChild(s.otherwise);
      CatAssociative(s0, StatementTrace(s.thenBranch, old(Stacks()).Enter(s.otherwise.None?), old(printer.indentLevel)),
                     ElseTrace(s.otherwise, old(Stacks()), old(printer.indentLevel)));
    }

    method ElseChild(o: Option<Statement>)
      requires Valid()
      modifies this, printer, symTab
      ensures Appended(ElseTrace(o, old(Stacks()), old(printer.indentLevel)))
      decreases o, 2
    {
      if o.Some? {
        StatementChild(o.value, true);
      } else {
        CatNothing(Written());
      }
    }

    method VisitWhile(s: Statement)
      requires Valid() && s.While?
      modifies this, printer, symTab
      ensures Appended(StatementTrace(s, old(Stacks()), old(printer.indentLevel)))
      decreases s, 0, 1
    {
      ghost var m := Stacks();
      ghost var level := printer.indentLevel;
      ghost var s0 := Written();
      ghost var outer := symTab.Model();
      OpenScope();
      ExpChild(s.condition, false);
      StatementChild(s.body, true);
      CloseScope();
      EndsAgreeOnEmptyScope(outer);
      ghost var c := ExpTrace(s.condition, m.Enter(false), level + 1);
      ghost var b := StatementTrace(s.body, m.Enter(true), level + 1);
      Regroup4(s0, Opened(level), c, b, Closed(level));
      CatAssociative(c, b, Closed(level));
    }

    /** The type is the last child only when there is no initializer. */
    method VisitVarDecl(s: Statement)
      requires Valid() && s.VarDecl?
      modifies this, printer, symTab
      ensures Appended(StatementTrace(s, old(Stacks()), old(printer.indentLevel)))
      decreases s, 0, 1
    {
      ghost var m := Stacks();
      ghost var level := printer.indentLevel;
      ghost var s0 := Written();
      PrintNode("VarDecl");
      IdChild(s.varId, false);
      TypeChild(s.varType, s.initExp.None?);
      OptionalExpChild(s.initExp);
      Regroup4(s0, Printed(m, "VarDecl"), IdTrace(s.varId, m.Enter(false)), TypeTrace(s.varType, m.Enter(s.initExp.None?)),
               OptionalExpTrace(s.initExp, m, level));
    }

    /** The identifier is looked up in the symbol table and the result is not used. */
    method VisitAssign(s: Statement)
      requires Valid() && s.Assign?
      modifies this, printer, symTab
      ensures Appended(StatementTrace(s, old(Stacks()), old(printer.indentLevel)))
      decreases s, 0, 1
    {
      ghost var m := Stacks();
      ghost var level := printer.indentLevel;
      ghost var s0 := Written();
      PrintNode("Assign");
      IdChild(s.target, false);
      var found := symTab.Lookup(s.target.value);
      ExpChild(s.value, true);
      Regroup3(s0, Printed(m, "Assign"), IdTrace(s.target, m.Enter(false)), ExpTrace(s.value, m.Enter(true), level));
    }

    method VisitFormal(f: Formal)
      requires Valid()
      modifies this
      ensures Appended(FormalTrace(f, old(Stacks())))
    {
      ghost var m := Stacks();
      ghost var s0 := Written();
      PrintNode("Formal");
      IdChild(f.id, false);
      TypeChild(f.formalType, true);
      Regroup3(s0, Printed(m, "Formal"), IdTrace(f.id, m.Enter(false)), TypeTrace(f.formalType, m.Enter(true)));
    }

    method FormalChild(f: Formal, last: bool)
      requires Valid()
      modifies this
      ensures Appended(FormalTrace(f, old(Stacks()).Enter(last)))
    {
      Enter(last);
      VisitFormal(f);
      LeaveChild();
    }

    method VisitFormals(fs: Formals)
      requires Valid()
      modifies this
      ensures Appended(FormalsTrace(fs, old(Stacks())))
    {
      ghost var m := Stacks();
      ghost var s0 := Written();
      PrintNode("Formals");
      VisitParameters(fs.formals);
      CatAssociative(s0, Printed(m, "Formals"), FormalsFrom(fs.formals, 0, m));
    }

    /** The loop of `visit(Formals)`: the parameters from the last to the first. */
    method VisitParameters(xs: seq<Formal>)
      requires Valid()
      modifies this
      ensures Appended(FormalsFrom(xs, 0, old(Stacks())))
    {
      ghost var m := Stacks();
      var i := |xs|;
      while i > 0
        invariant 0 <= i <= |xs|
        invariant Appended(FormalsFrom(xs, i, m))
      {
        FormalChild(xs[i - 1], i == 1);
        CatAssociative(old(Written()), FormalsFrom(xs, i, m), FormalTrace(xs[i - 1], m.Enter(i == 1)));
        i := i - 1;
      }
    }

    method FormalsChild(fs: Formals, last: bool)
      requires Valid()
      modifies this
      ensures Appended(FormalsTrace(fs, old(Stacks()).Enter(last)))
    {
      Enter(last);
      VisitFormals(fs);
      LeaveChild();
    }

    method VisitFuncDecl(f: FuncDecl)
      requires Valid()
      modifies this, printer, symTab
      ensures Appended(FuncDeclTrace(f, old(Stacks()), old(printer.indentLevel)))
    {
      ghost var m := Stacks();
      ghost var level := printer.indentLevel;
      ghost var s0 := Written();
      PrintNode("FuncDecl");
      ghost var s1 := Written();
      IdChild(f.id, false);
      TypeChild(f.returnType, false);
      FormalsChild(f.formals, false);
      StatementsChild(f.body, true);
      ghost var p := Printed(m, "FuncDecl");
      Regroup4(s1, IdTrace(f.id, m.Enter(false)), TypeTrace(f.returnType, m.Enter(false)),
               FormalsTrace(f.formals, m.Enter(false)), StatementsTrace(f.body, m.Enter(true), level));
      CatAssociative(s0, p, Cat(IdTrace(f.id, m.Enter(false)), Cat(TypeTrace(f.returnType, m.Enter(false)),
                            Cat(FormalsTrace(f.formals, m.Enter(false)), StatementsTrace(f.body, m.Enter(true), level)))));
    }

    method FuncDeclChild(f: FuncDecl, last: bool)
      requires Valid()
      modifies this, printer, symTab
      ensures Appended(FuncDeclTrace(f, old(Stacks()).Enter(last), old(printer.indentLevel)))
    {
      Enter(last);
      VisitFuncDecl(f);
      LeaveChild();
    }

    method VisitFuncs(p: Funcs)
      requires Valid()
      modifies this, printer, symTab
      ensures Appended(FuncsTrace(p, old(Stacks()), old(printer.indentLevel)))
    {
      ghost var m := Stacks();
      ghost var level := printer.indentLevel;
      ghost var s0 := Written();
      PrintNode("Funcs");
      VisitFunctions(p.funcs);
      Then(s0, Printed(m, "Funcs"), FuncsUpTo(p.funcs, |p.funcs|, m, level), Written());
    }

    /** The loop of `visit(Funcs)`: the functions from the first to the last. */
    method VisitFunctions(fs: seq<FuncDecl>)
      requires Valid()
      modifies this, printer, symTab
      ensures Appended(FuncsUpTo(fs, |fs|, old(Stacks()), old(printer.indentLevel)))
    {
      ghost var m := Stacks();
      ghost var level := printer.indentLevel;
      for i := 0 to |fs|
        invariant Appended(FuncsUpTo(fs, i, m, level))
      {
        FuncStep(fs, i, m, level, old(Written()));
      }
    }

    /** One turn of the loop over the program: `fs[i]` is visited. */
    method FuncStep(fs: seq<FuncDecl>, i: nat, ghost m: Margin, ghost level: int, ghost w0: Trace)
      requires Valid() && i < |fs| && Stacks() == m && printer.indentLevel == level
      requires Written() == Cat(w0, FuncsUpTo(fs, i, m, level))
      modifies this, printer, symTab
      ensures Valid() && Kept() == old(Kept())
      ensures Written() == Cat(w0, FuncsUpTo(fs, i + 1, m, level))
    {
      FuncDeclChild(fs[i], i == |fs| - 1);
      CatAssociative(w0, FuncsUpTo(fs, i, m, level), FuncDeclTrace(fs[i], m.Enter(i == |fs| - 1), level));
    }
  }
}

/** The scoped symbol table and the function table. A `Scope` holds the symbols
    of one block in insertion order and two offset counters: parameters are
    numbered downward, locals upward. A `SymbolTable` is a stack of scopes (the
    top is the last element here) with running counters that follow the top
    scope. Each class is specified by a value snapshot (`ScopeState`,
    `TableState`) and pure transition functions on it; the lemmas below are
    about those functions. The table holds its scopes by value, as the
    program's stack of `Scope` does. */
module Symbols {
  import opened Wrappers
  import opened Ast
  import opened Output

  datatype Symbol = Symbol(name: string, ty: BuiltInType, offset: int)

  /** A snapshot of a Scope. The initial counters are stored and never read. */
  datatype ScopeState = ScopeState(
    symbols: seq<Symbol>,
    negative: int,
    positive: int,
    initialPositive: int,
    initialNegative: int)

  /** A snapshot of a SymbolTable: the stack of scopes, innermost last. */
  datatype TableState = TableState(scopes: seq<ScopeState>, positive: int, negative: int)

  // ----- Scope -----

  function NewScope(initialPositive: int, initialNegative: int): ScopeState {
    ScopeState([], initialNegative, initialPositive, initialPositive, initialNegative)
  }

  /** `Scope::addArg`: the new state and the offset assigned. */
  function ScopeAddArg(s: ScopeState, name: string, ty: BuiltInType): (ScopeState, int) {
    (s.(symbols := s.symbols + [Symbol(name, ty, s.negative)], negative := s.negative - 1), s.negative)
  }

  /** `Scope::addVariable`: the new state and the offset assigned. */
  function ScopeAddVariable(s: ScopeState, name: string, ty: BuiltInType): (ScopeState, int) {
    (s.(symbols := s.symbols + [Symbol(name, ty, s.positive)], positive := s.positive + 1), s.positive)
  }

  /** A declaration made in the innermost scope. */
  datatype Decl = ArgDecl(name: string, ty: BuiltInType) | VarDeclared(name: string, ty: BuiltInType)

  /** Adds the declarations to a scope in order; returns the offsets assigned. */
  function ScopeDeclare(s: ScopeState, ds: seq<Decl>): (ScopeState, seq<int>)
    decreases |ds|
  {
    if |ds| == 0 then (s, [])
    else
      var (s', off) := if ds[0].ArgDecl? then ScopeAddArg(s, ds[0].name, ds[0].ty)
                       else ScopeAddVariable(s, ds[0].name, ds[0].ty);
      var (s'', offs) := ScopeDeclare(s', ds[1..]);
      (s'', [off] + offs)
  }

  function CountArgs(ds: seq<Decl>): nat
    decreases |ds|
  {
    if |ds| == 0 then 0 else (if ds[0].ArgDecl? then 1 else 0) + CountArgs(ds[1..])
  }

  function CountVars(ds: seq<Decl>): nat
    decreases |ds|
  {
    if |ds| == 0 then 0 else (if ds[0].VarDeclared? then 1 else 0) + CountVars(ds[1..])
  }

  /** Local variables declared one after another get consecutive offsets k, k+1, ...
      from the scope's positive counter k, and the counter ends at k+n. */
  lemma {:induction false} VariablesGetConsecutiveOffsets(s: ScopeState, ds: seq<Decl>)
    requires forall i :: 0 <= i < |ds| ==> ds[i].VarDeclared?
    ensures var (s', offs) := ScopeDeclare(s, ds);
      |offs| == |ds| &&
      (forall i :: 0 <= i < |ds| ==> offs[i] == s.positive + i) &&
      s'.positive == s.positive + |ds| && s'.negative == s.negative &&
      |s'.symbols| == |s.symbols| + |ds| && s'.symbols[..|s.symbols|] == s.symbols &&
      (forall i :: 0 <= i < |ds| ==> s'.symbols[|s.symbols| + i] == Symbol(ds[i].name, ds[i].ty, s.positive + i))
    decreases |ds|
  {
    if |ds| > 0 {
      var (s1, _) := ScopeAddVariable(s, ds[0].name, ds[0].ty);
      VariablesGetConsecutiveOffsets(s1, ds[1..]);
      var (s', offs) := ScopeDeclare(s, ds);
      forall i | 0 <= i < |ds| ensures s'.symbols[|s.symbols| + i] == Symbol(ds[i].name, ds[i].ty, s.positive + i) {
        if i > 0 {
          assert s'.symbols[|s1.symbols| + (i - 1)] == Symbol(ds[1..][i - 1].name, ds[1..][i - 1].ty, s1.positive + (i - 1));
        }
      }
    }
  }

  /** Parameters declared one after another get offsets k, k-1, ... from the scope's
      negative counter k, and the counter ends at k-n. */
  lemma {:induction false} ArgsGetDescendingOffsets(s: ScopeState, ds: seq<Decl>)
    requires forall i :: 0 <= i < |ds| ==> ds[i].ArgDecl?
    ensures var (s', offs) := ScopeDeclare(s, ds);
      |offs| == |ds| &&
      (forall i :: 0 <= i < |ds| ==> offs[i] == s.negative - i) &&
      s'.negative == s.negative - |ds| && s'.positive == s.positive &&
      |s'.symbols| == |s.symbols| + |ds| && s'.symbols[..|s.symbols|] == s.symbols &&
      (forall i :: 0 <= i < |ds| ==> s'.symbols[|s.symbols| + i] == Symbol(ds[i].name, ds[i].ty, s.negative - i))
    decreases |ds|
  {
    if |ds| > 0 {
      var (s1, _) := ScopeAddArg(s, ds[0].name, ds[0].ty);
      ArgsGetDescendingOffsets(s1, ds[1..]);
      var (s', offs) := ScopeDeclare(s, ds);
      forall i | 0 <= i < |ds| ensures s'.symbols[|s.symbols| + i] == Symbol(ds[i].name, ds[i].ty, s.negative - i) {
        if i > 0 {
          assert s'.symbols[|s1.symbols| + (i - 1)] == Symbol(ds[1..][i - 1].name, ds[1..][i - 1].ty, s1.negative - (i - 1));
        }
      }
    }
  }

  /** Declarations move each counter by the number of declarations of its kind and
      never touch the initial counters or the earlier symbols. */
  lemma {:induction false} DeclareMovesCounters(s: ScopeState, ds: seq<Decl>)
    ensures var s' := ScopeDeclare(s, ds).0;
      s'.positive == s.positive + CountVars(ds) && s'.negative == s.negative - CountArgs(ds) &&
      s'.initialPositive == s.initialPositive && s'.initialNegative == s.initialNegative &&
      |s'.symbols| == |s.symbols| + |ds| && s'.symbols[..|s.symbols|] == s.symbols
    decreases |ds|
  {
    if |ds| > 0 {
      var s1 := if ds[0].ArgDecl? then ScopeAddArg(s, ds[0].name, ds[0].ty).0 else ScopeAddVariable(s, ds[0].name, ds[0].ty).0;
      DeclareMovesCounters(s1, ds[1..]);
      assert s1.symbols[..|s.symbols|] == s.symbols;
    }
  }

  // ----- SymbolTable -----

  function InitialTable(): TableState {
    TableState([], 0, -1)
  }

  /** `beginScope`: pushes a scope seeded with the running counters. */
  function Begin(t: TableState): TableState {
    t.(scopes := t.scopes + [NewScope(t.positive, t.negative)])
  }

  /** `endScope` as written: pops the top scope and copies that scope's CURRENT
      counters into the running counters; nothing happens on an empty stack. */
  function End(t: TableState): TableState {
    if |t.scopes| == 0 then t
    else
      var top := t.scopes[|t.scopes| - 1];
      TableState(t.scopes[..|t.scopes| - 1], top.positive, top.negative)
  }

  /** `endScope` as the stored initial counters are evidently meant to be used:
      pops the top scope and restores the counters it was seeded with. */
  function EndRestoring(t: TableState): TableState {
    if |t.scopes| == 0 then t
    else
      var top := t.scopes[|t.scopes| - 1];
      TableState(t.scopes[..|t.scopes| - 1], top.initialPositive, top.initialNegative)
  }

  /** `SymbolTable::addArg`: -1 and no change on an empty stack. */
  function TableAddArg(t: TableState, name: string, ty: BuiltInType): (TableState, int) {
    if |t.scopes| == 0 then (t, -1)
    else
      var (top, off) := ScopeAddArg(t.scopes[|t.scopes| - 1], name, ty);
      (TableState(t.scopes[..|t.scopes| - 1] + [top], t.positive, t.negative - 1), off)
  }

  /** `SymbolTable::addVariable`: -1 and no change on an empty stack. */
  function TableAddVariable(t: TableState, name: string, ty: BuiltInType): (TableState, int) {
    if |t.scopes| == 0 then (t, -1)
    else
      var (top, off) := ScopeAddVariable(t.scopes[|t.scopes| - 1], name, ty);
      (TableState(t.scopes[..|t.scopes| - 1] + [top], t.positive + 1, t.negative), off)
  }

  /** Adds one declaration through the table. */
  function DeclareOne(t: TableState, d: Decl): TableState {
    if d.ArgDecl? then TableAddArg(t, d.name, d.ty).0 else TableAddVariable(t, d.name, d.ty).0
  }

  /** Adds the declarations through the table, in order. */
  function Declare(t: TableState, ds: seq<Decl>): TableState
    decreases |ds|
  {
    if |ds| == 0 then t else Declare(DeclareOne(t, ds[0]), ds[1..])
  }

  /** The earliest-inserted symbol with the given name. */
  function First(symbols: seq<Symbol>, name: string): (r: Option<Symbol>)
    ensures r.Some? ==> r.value in symbols && r.value.name == name
    ensures r.None? <==> forall i :: 0 <= i < |symbols| ==> symbols[i].name != name
  {
    if |symbols| == 0 then None
    else if symbols[0].name == name then Some(symbols[0])
    else First(symbols[1..], name)
  }

  /** `lookup`: the first scope from the innermost outward that has the name decides. */
  function Resolve(scopes: seq<ScopeState>, name: string): Option<Symbol>
    decreases |scopes|
  {
    if |scopes| == 0 then None
    else match First(scopes[|scopes| - 1].symbols, name)
      case Some(s) => Some(s)
      case None => Resolve(scopes[..|scopes| - 1], name)
  }

  /** A table is in step when its running counters equal the top scope's counters
      and every scope was seeded with the current counters of the scope below it. */
  ghost predicate InStep(t: TableState) {
    (|t.scopes| > 0 ==> t.positive == t.scopes[|t.scopes| - 1].positive && t.negative == t.scopes[|t.scopes| - 1].negative)
    && (forall i :: 0 < i < |t.scopes| ==>
          t.scopes[i].initialPositive == t.scopes[i - 1].positive && t.scopes[i].initialNegative == t.scopes[i - 1].negative)
  }

  lemma BeginKeepsInStep(t: TableState)
    requires InStep(t)
    ensures InStep(Begin(t))
  {
  }

  lemma AddKeepsInStep(t: TableState, name: string, ty: BuiltInType)
    requires InStep(t)
    ensures InStep(TableAddArg(t, name, ty).0) && InStep(TableAddVariable(t, name, ty).0)
  {
  }

  /** The corrected end keeps the table in step: after it, the running counters are
      again those of the scope that is now on top. */
  lemma {:induction false} EndRestoringKeepsInStep(t: TableState)
    requires InStep(t)
    ensures InStep(EndRestoring(t))
  {
    if |t.scopes| > 1 {
      var n := |t.scopes|;
      assert t.scopes[n - 1].initialPositive == t.scopes[n - 2].positive;
    }
  }

  /** Declarations through the table change only the top scope, and move the
      matching running counter with it. */
  lemma {:induction false} DeclareOnlyTouchesTop(t: TableState, ds: seq<Decl>)
    requires |t.scopes| > 0
    ensures var t' := Declare(t, ds); var n := |t.scopes|;
      |t'.scopes| == n && t'.scopes[..n - 1] == t.scopes[..n - 1] &&
      t'.scopes[n - 1] == ScopeDeclare(t.scopes[n - 1], ds).0 &&
      t'.positive == t.positive + CountVars(ds) && t'.negative == t.negative - CountArgs(ds)
    decreases |ds|
  {
    if |ds| > 0 {
      var n := |t.scopes|;
      var t1 := DeclareOne(t, ds[0]);
      assert t1.scopes[..n - 1] == t.scopes[..n - 1];
      DeclareOnlyTouchesTop(t1, ds[1..]);
    }
  }

  /** Stack discipline with the corrected end: opening a scope, declaring anything
      in it and closing it gives back exactly the table before. */
  lemma ScopeRoundTripRestoring(t: TableState, ds: seq<Decl>)
    ensures EndRestoring(Declare(Begin(t), ds)) == t
  {
    DeclareOnlyTouchesTop(Begin(t), ds);
    DeclareMovesCounters(NewScope(t.positive, t.negative), ds);
    assert Begin(t).scopes[..|t.scopes|] == t.scopes;
  }

  /** The code as written: closing a scope gives back the stack of scopes, but leaves
      the running counters advanced past everything the closed scope allocated. */
  lemma ScopeRoundTripAsWritten(t: TableState, ds: seq<Decl>)
    ensures End(Declare(Begin(t), ds))
         == TableState(t.scopes, t.positive + CountVars(ds), t.negative - CountArgs(ds))
  {
    DeclareOnlyTouchesTop(Begin(t), ds);
    DeclareMovesCounters(NewScope(t.positive, t.negative), ds);
    assert Begin(t).scopes[..|t.scopes|] == t.scopes;
  }

  /** The two ends agree on a scope in which nothing was declared. */
  lemma EndsAgreeOnEmptyScope(t: TableState)
    ensures End(Begin(t)) == EndRestoring(Begin(t)) == t
  {
  }

  // ----- Nested scopes -----

  /** A well-bracketed run of table operations: a declaration in the current scope,
      or a nested block opened with `beginScope` and closed with `endScope`. */
  datatype Op = Declared(decl: Decl) | Nested(body: seq<Op>)

  /** Closes the top scope with the as-written end or with the corrected one. */
  function Close(t: TableState, restoring: bool): TableState {
    if restoring then EndRestoring(t) else End(t)
  }

  /** Runs the operations in order, closing every nested block with the chosen end. */
  function Apply(t: TableState, ops: seq<Op>, restoring: bool): TableState
    decreases ops
  {
    if |ops| == 0 then t else Apply(StepOp(t, ops[0], restoring), ops[1..], restoring)
  }

  /** One operation: a declaration, or a whole block between `beginScope` and `endScope`. */
  function StepOp(t: TableState, op: Op, restoring: bool): TableState
    decreases op
  {
    match op
    case Declared(d) => DeclareOne(t, d)
    case Nested(body) => Close(Apply(Begin(t), body, restoring), restoring)
  }

  /** The variables declared directly in the block, not in the blocks nested in it. */
  function DirectVars(ops: seq<Op>): nat
    decreases |ops|
  {
    if |ops| == 0 then 0
    else (if ops[0].Declared? && ops[0].decl.VarDeclared? then 1 else 0) + DirectVars(ops[1..])
  }

  /** The parameters declared directly in the block. */
  function DirectArgs(ops: seq<Op>): nat
    decreases |ops|
  {
    if |ops| == 0 then 0
    else (if ops[0].Declared? && ops[0].decl.ArgDecl? then 1 else 0) + DirectArgs(ops[1..])
  }

  /** `t'` has the same scopes as `t` except the top one, whose current counters
      moved by `vars` and `-args` and whose initial counters are unchanged. */
  ghost predicate MovesTopBy(t: TableState, t': TableState, vars: int, args: int)
    requires |t.scopes| > 0
  {
    var n := |t.scopes|;
    && |t'.scopes| == n && t'.scopes[..n - 1] == t.scopes[..n - 1]
    && t'.scopes[n - 1].positive == t.scopes[n - 1].positive + vars
    && t'.scopes[n - 1].negative == t.scopes[n - 1].negative - args
    && t'.scopes[n - 1].initialPositive == t.scopes[n - 1].initialPositive
    && t'.scopes[n - 1].initialNegative == t.scopes[n - 1].initialNegative
  }

  lemma MovesTopCompose(t: TableState, t1: TableState, t2: TableState, v1: int, a1: int, v2: int, a2: int)
    requires |t.scopes| > 0 && MovesTopBy(t, t1, v1, a1)
    requires |t1.scopes| > 0 && MovesTopBy(t1, t2, v2, a2)
    ensures MovesTopBy(t, t2, v1 + v2, a1 + a2)
  {
    var n := |t.scopes|;
    assert t2.scopes[..n - 1] == t1.scopes[..n - 1];
  }

  /** A declaration moves the top scope by one counter step of its kind. */
  lemma DeclareOneMovesTop(t: TableState, d: Decl)
    requires |t.scopes| > 0
    ensures MovesTopBy(t, DeclareOne(t, d), if d.VarDeclared? then 1 else 0, if d.ArgDecl? then 1 else 0)
  {
    var n := |t.scopes|;
    assert DeclareOne(t, d).scopes[..n - 1] == t.scopes[..n - 1];
  }

  /** A nested block that only moved its own scope leaves, once closed, every scope
      of the table as it was. */
  lemma ClosedBlockMovesNothing(t: TableState, inner: TableState, vars: int, args: int, restoring: bool)
    requires |Begin(t).scopes| > 0 && MovesTopBy(Begin(t), inner, vars, args)
    ensures Close(inner, restoring).scopes == t.scopes
  {
    assert Begin(t).scopes[..|t.scopes|] == t.scopes;
  }

  /** With either end, a run of operations leaves every scope below the top as it was,
      keeps the top scope's initial counters and moves its current counters by the
      run's direct declarations only: a nested block pushes its own scope and pops it
      again. */
  lemma {:induction false} ApplyOnlyMovesTop(t: TableState, ops: seq<Op>, restoring: bool)
    requires |t.scopes| > 0
    ensures MovesTopBy(t, Apply(t, ops, restoring), DirectVars(ops), DirectArgs(ops))
    decreases ops
  {
    if |ops| == 0 {
      assert Apply(t, ops, restoring) == t;
    } else {
      var t1 := StepOp(t, ops[0], restoring);
      var v := if ops[0].Declared? && ops[0].decl.VarDeclared? then 1 else 0;
      var a := if ops[0].Declared? && ops[0].decl.ArgDecl? then 1 else 0;
      match ops[0] {
        case Declared(d) =>
          DeclareOneMovesTop(t, d);
        case Nested(body) =>
          ApplyOnlyMovesTop(Begin(t), body, restoring);
          ClosedBlockMovesNothing(t, Apply(Begin(t), body, restoring), DirectVars(body), DirectArgs(body), restoring);
          assert MovesTopBy(t, t1, 0, 0);
      }
      assert MovesTopBy(t, t1, v, a);
      ApplyOnlyMovesTop(t1, ops[1..], restoring);
      MovesTopCompose(t, t1, Apply(t1, ops[1..], restoring), v, a, DirectVars(ops[1..]), DirectArgs(ops[1..]));
      assert Apply(t, ops, restoring) == Apply(t1, ops[1..], restoring);
    }
  }

  /** Stack discipline with the corrected end, for any well-bracketed block: opening
      a scope, running the block in it and closing it gives back the table before. */
  lemma NestedRoundTripRestoring(t: TableState, ops: seq<Op>)
    ensures EndRestoring(Apply(Begin(t), ops, true)) == t
  {
    ApplyOnlyMovesTop(Begin(t), ops, true);
    assert Begin(t).scopes[..|t.scopes|] == t.scopes;
  }

  /** The code as written, for any well-bracketed block: closing the scope restores
      the stack of scopes, and the running counters end advanced by what the block
      declared directly, whatever its inner blocks declared. */
  lemma NestedRoundTripAsWritten(t: TableState, ops: seq<Op>)
    ensures End(Apply(Begin(t), ops, false))
         == TableState(t.scopes, t.positive + DirectVars(ops), t.negative - DirectArgs(ops))
  {
    ApplyOnlyMovesTop(Begin(t), ops, false);
    assert Begin(t).scopes[..|t.scopes|] == t.scopes;
  }

  /** With the corrected end, every well-bracketed run keeps the table in step. */
  lemma {:induction false} ApplyRestoringKeepsInStep(t: TableState, ops: seq<Op>)
    requires InStep(t)
    ensures InStep(Apply(t, ops, true))
    decreases ops
  {
    if |ops| > 0 {
      var t1 := StepOp(t, ops[0], true);
      match ops[0] {
        case Declared(d) =>
          AddKeepsInStep(t, d.name, d.ty);
        case Nested(body) =>
          BeginKeepsInStep(t);
          ApplyRestoringKeepsInStep(Begin(t), body);
          EndRestoringKeepsInStep(Apply(Begin(t), body, true));
      }
      ApplyRestoringKeepsInStep(t1, ops[1..]);
    }
  }

  /** Counterexample for the as-written end with an inner block: in
      `{ x; { y; } z; }` the inner end leaves the running counter at 2 while the outer
      scope's is 1, so the table is out of step; `z` still gets offset 1 from its
      scope, and the outer end sets the counter to 2, past x and z only. */
  lemma NestedCounterDrift()
    ensures var x := Declared(VarDeclared("x", INT));
      var inner := Apply(Begin(InitialTable()), [x, Nested([Declared(VarDeclared("y", INT))])], false);
      inner.positive == 2 && inner.scopes[0].positive == 1 && !InStep(inner) &&
      TableAddVariable(inner, "z", INT).1 == 1 &&
      End(TableAddVariable(inner, "z", INT).0).positive == 2
  {
    var x := Declared(VarDeclared("x", INT));
    var y := Declared(VarDeclared("y", INT));
    var t0 := Begin(InitialTable());
    var t1 := Declare(t0, [VarDeclared("x", INT)]);
    assert Apply(t0, [x, Nested([y])], false) == Apply(t1, [Nested([y])], false);
    var t2 := End(Apply(Begin(t1), [y], false));
    assert Apply(Begin(t1), [y], false) == Declare(Begin(t1), [VarDeclared("y", INT)]);
    assert Apply(t1, [Nested([y])], false) == Apply(t2, [], false) == t2;
  }

  /** Counterexample for the as-written end: a parameter of a second function body
      gets offset -2 instead of -1 once the first body's scope, which declared one
      parameter, has ended. */
  lemma SecondFunctionParameterOffset()
    ensures TableAddArg(Begin(End(TableAddArg(Begin(InitialTable()), "a", INT).0)), "b", INT).1 == -2
    ensures TableAddArg(Begin(EndRestoring(TableAddArg(Begin(InitialTable()), "a", INT).0)), "b", INT).1 == -1
  {
  }

  /** When the innermost scope lacks the name, `lookup` goes on to the enclosing ones. */
  lemma ResolveFallsThrough(scopes: seq<ScopeState>, name: string)
    requires |scopes| > 0 && First(scopes[|scopes| - 1].symbols, name).None?
    ensures Resolve(scopes, name) == Resolve(scopes[..|scopes| - 1], name)
  {
  }

  /** What `lookup` returns is a symbol of that name in some scope, and no scope
      further in has the name. */
  lemma {:induction false} ResolveSound(scopes: seq<ScopeState>, name: string)
    requires Resolve(scopes, name).Some?
    ensures exists i :: (0 <= i < |scopes| && First(scopes[i].symbols, name) == Resolve(scopes, name) &&
                         (forall j :: i < j < |scopes| ==> First(scopes[j].symbols, name).None?))
    decreases |scopes|
  {
    var n := |scopes|;
    if First(scopes[n - 1].symbols, name).None? {
      var outer := scopes[..n - 1];
      ResolveSound(outer, name);
      var i :| 0 <= i < |outer| && First(outer[i].symbols, name) == Resolve(outer, name) &&
        (forall j :: i < j < |outer| ==> First(outer[j].symbols, name).None?);
      assert outer[i] == scopes[i];
      ResolveFallsThrough(scopes, name);
      forall j | i < j < n ensures First(scopes[j].symbols, name).None? {
        if j < n - 1 {
          assert First(outer[j].symbols, name).None?;
          assert outer[j] == scopes[j];
        } else {
          assert j == n - 1;
        }
      }
      assert 0 <= i < n && First(scopes[i].symbols, name) == Resolve(scopes, name);
    } else {
      assert First(scopes[n - 1].symbols, name) == Resolve(scopes, name);
    }
  }

  /** `lookup` finds nothing exactly when no scope has a symbol of that name. */
  lemma {:induction false} ResolveNoneExactly(scopes: seq<ScopeState>, name: string)
    ensures Resolve(scopes, name).None? <==> forall i :: 0 <= i < |scopes| ==> First(scopes[i].symbols, name).None?
    decreases |scopes|
  {
    var n := |scopes|;
    if n > 0 {
      ResolveNoneExactly(scopes[..n - 1], name);
      assert forall i :: 0 <= i < n - 1 ==> scopes[..n - 1][i] == scopes[i];
    }
  }

  /** Shadowing: a name declared in a just-opened scope is found there, whatever the
      enclosing scopes hold. */
  lemma InnerDeclarationShadows(t: TableState, name: string, ty: BuiltInType)
    ensures var (t', off) := TableAddVariable(Begin(t), name, ty);
      off == t.positive && Resolve(t'.scopes, name) == Some(Symbol(name, ty, t.positive))
  {
    var (t', off) := TableAddVariable(Begin(t), name, ty);
    assert t'.scopes[|t'.scopes| - 1].symbols == [Symbol(name, ty, t.positive)];
  }

  /** Closing the inner scope makes the outer declarations visible again: lookup
      after the end answers as it did before the scope was opened. */
  lemma LookupAfterEnd(t: TableState, ds: seq<Decl>, name: string)
    ensures Resolve(End(Declare(Begin(t), ds)).scopes, name) == Resolve(t.scopes, name)
    ensures Resolve(EndRestoring(Declare(Begin(t), ds)).scopes, name) == Resolve(t.scopes, name)
  {
    ScopeRoundTripAsWritten(t, ds);
    ScopeRoundTripRestoring(t, ds);
  }

  /** The first match found by scanning from index 0. */
  lemma {:induction false} FirstAt(symbols: seq<Symbol>, name: string, j: nat)
    requires j < |symbols| && symbols[j].name == name
    requires forall k :: 0 <= k < j ==> symbols[k].name != name
    ensures First(symbols, name) == Some(symbols[j])
  {
    if j > 0 {
      FirstAt(symbols[1..], name, j - 1);
    }
  }

  class Scope {
    var symbols: seq<Symbol>
    var currentNegativeOffset: int
    var currentPositiveOffset: int
    var initialPositiveOffset: int
    var initialNegativeOffset: int

    function State(): ScopeState
      reads this
    {
      ScopeState(symbols, currentNegativeOffset, currentPositiveOffset, initialPositiveOffset, initialNegativeOffset)
    }

    /** A new scope's current counters are its seeds, and it has no symbols. */
    constructor (initialPositiveOffset: int, initialNegativeOffset: int)
      ensures symbols == []
      ensures currentPositiveOffset == initialPositiveOffset && currentNegativeOffset == initialNegativeOffset
      ensures State() == NewScope(initialPositiveOffset, initialNegativeOffset)
    {
      symbols := [];
      currentNegativeOffset := initialNegativeOffset;
      currentPositiveOffset := initialPositiveOffset;
      this.initialPositiveOffset := initialPositiveOffset;
      this.initialNegativeOffset := initialNegativeOffset;
    }

    /** Returns the current negative offset, records the symbol with it and moves
        the negative counter down by one. */
    method AddArg(name: string, ty: BuiltInType) returns (offset: int)
      modifies this
      ensures offset == old(currentNegativeOffset)
      ensures symbols == old(symbols) + [Symbol(name, ty, offset)]
      ensures currentNegativeOffset == old(currentNegativeOffset) - 1
      ensures currentPositiveOffset == old(currentPositiveOffset)
      ensures (State(), offset) == ScopeAddArg(old(State()), name, ty)
    {
      offset := currentNegativeOffset;
      symbols := symbols + [Symbol(name, ty, currentNegativeOffset)];
      currentNegativeOffset := currentNegativeOffset - 1;
    }

    /** Returns the current positive offset, records the symbol with it and moves
        the positive counter up by one. */
    method AddVariable(name: string, ty: BuiltInType) returns (offset: int)
      modifies this
      ensures offset == old(currentPositiveOffset)
      ensures symbols == old(symbols) + [Symbol(name, ty, offset)]
      ensures currentPositiveOffset == old(currentPositiveOffset) + 1
      ensures currentNegativeOffset == old(currentNegativeOffset)
      ensures (State(), offset) == ScopeAddVariable(old(State()), name, ty)
    {
      offset := currentPositiveOffset;
      symbols := symbols + [Symbol(name, ty, currentPositiveOffset)];
      currentPositiveOffset := currentPositiveOffset + 1;
    }
  }

  /** The table's stack holds its scopes by value, the innermost last; an update of
      the top scope replaces the last element. */
  class SymbolTable {
    var symbolsStack: seq<ScopeState>
    var currentPositiveOffset: int
    var currentNegativeOffset: int

    function Model(): TableState
      reads this
    {
      TableState(symbolsStack, currentPositiveOffset, currentNegativeOffset)
    }

    constructor ()
      ensures Model() == InitialTable()
    {
      symbolsStack := [];
      currentPositiveOffset := 0;
      currentNegativeOffset := -1;
    }

    method BeginScope()
      modifies this
      ensures Model() == Begin(old(Model()))
    {
      symbolsStack := symbolsStack + [NewScope(currentPositiveOffset, currentNegativeOffset)];
    }

    method EndScope()
      modifies this
      ensures Model() == End(old(Model()))
    {
      if |symbolsStack| > 0 {
        var top := symbolsStack[|symbolsStack| - 1];
        currentPositiveOffset := top.positive;
        currentNegativeOffset := top.negative;
        symbolsStack := symbolsStack[..|symbolsStack| - 1];
      }
    }

    /** The corrected `endScope`: pops the top scope and restores the counters that
        scope was seeded with. */
    method EndScopeRestoring()
      modifies this
      ensures Model() == EndRestoring(old(Model()))
    {
      if |symbolsStack| > 0 {
        var top := symbolsStack[|symbolsStack| - 1];
        currentPositiveOffset := top.initialPositive;
        currentNegativeOffset := top.initialNegative;
        symbolsStack := symbolsStack[..|symbolsStack| - 1];
      }
    }

    /** `Scope::addArg` on the top scope, then the running negative counter moves. */
    method AddArg(name: string, ty: BuiltInType) returns (offset: int)
      modifies this
      ensures (Model(), offset) == TableAddArg(old(Model()), name, ty)
    {
      if |symbolsStack| > 0 {
        var (top, off) := ScopeAddArg(symbolsStack[|symbolsStack| - 1], name, ty);
        offset := off;
        symbolsStack := symbolsStack[..|symbolsStack| - 1] + [top];
        currentNegativeOffset := currentNegativeOffset - 1;
      } else {
        offset := -1;
      }
    }

    /** `Scope::addVariable` on the top scope, then the running positive counter moves. */
    method AddVariable(name: string, ty: BuiltInType) returns (offset: int)
      modifies this
      ensures (Model(), offset) == TableAddVariable(old(Model()), name, ty)
    {
      if |symbolsStack| > 0 {
        var (top, off) := ScopeAddVariable(symbolsStack[|symbolsStack| - 1], name, ty);
        offset := off;
        symbolsStack := symbolsStack[..|symbolsStack| - 1] + [top];
        currentPositiveOffset := currentPositiveOffset + 1;
      } else {
        offset := -1;
      }
    }

    /** `lookup`: scans the scopes from the innermost outward and, within a scope,
        the symbols in insertion order; the first symbol with the name is returned. */
    method Lookup(name: string) returns (r: Option<Symbol>)
      ensures r == Resolve(Model().scopes, name)
      ensures r.Some? ==> r.value.name == name
    {
      var i := |symbolsStack|;
      assert symbolsStack[..i] == symbolsStack;
      while i > 0
        invariant 0 <= i <= |symbolsStack|
        invariant Resolve(symbolsStack, name) == Resolve(symbolsStack[..i], name)
      {
        var scope := symbolsStack[i - 1];
        assert symbolsStack[..i][i - 1] == scope;
        var j := 0;
        while j < |scope.symbols|
          invariant 0 <= j <= |scope.symbols|
          invariant forall k :: 0 <= k < j ==> scope.symbols[k].name != name
        {
          if scope.symbols[j].name == name {
            FirstAt(scope.symbols, name, j);
            return Some(scope.symbols[j]);
          }
          j := j + 1;
        }
        assert symbolsStack[..i][..i - 1] == symbolsStack[..i - 1];
        i := i - 1;
      }
      return None;
    }

    /** `validateFunctionCall`, given the function table and the types of the actual
        arguments: an unknown name, then a different argument count, then the first
        position whose types differ, each end the validation with its diagnostic (at
        line 0, the line the program passes). */
    method ValidateFunctionCall(functionTable: FunctionSymbolTable, name: string, actualTypes: seq<BuiltInType>)
      returns (r: Outcome<Diagnostic>)
      ensures name !in functionTable.functionMap <==> r == Fail(ErrorUndefFunc(0, name))
      ensures name in functionTable.functionMap ==>
        var expected := ParamTypes(functionTable.functionMap[name].formals);
        && (|expected| != |actualTypes| ==> r == Fail(ErrorPrototypeMismatch(0, name, TypeNames(expected))))
        && (|expected| == |actualTypes| && expected != actualTypes ==> r == Fail(ErrorMismatch(0)))
        && (r == Pass <==> expected == actualTypes)
    {
      var entry := functionTable.LookupFunction(name);
      if entry.None? {
        return Fail(ErrorUndefFunc(0, name));
      }
      var expected := entry.value.formals.formals;
      if |expected| != |actualTypes| {
        return Fail(ErrorPrototypeMismatch(0, name, TypeNames(ParamTypes(entry.value.formals))));
      }
      var k := 0;
      while k < |expected| && k < |actualTypes|
        invariant 0 <= k <= |expected|
        invariant forall m :: 0 <= m < k ==> expected[m].formalType.ty == actualTypes[m]
      {
        if expected[k].formalType.ty != actualTypes[k] {
          assert ParamTypes(entry.value.formals)[k] != actualTypes[k];
          return Fail(ErrorMismatch(0));
        }
        k := k + 1;
      }
      assert ParamTypes(entry.value.formals) == actualTypes;
      return Pass;
    }
  }

  /** A function's signature as recorded in the function table. */
  datatype FunctionEntry = FunctionEntry(name: string, returnType: BuiltInType, formals: Formals)

  class FunctionSymbolTable {
    var functionMap: map<string, FunctionEntry>

    /** Every entry is stored under its own name. */
    ghost predicate Valid()
      reads this
    {
      forall k :: k in functionMap ==> functionMap[k].name == k
    }

    constructor ()
      ensures Valid() && functionMap == map[]
    {
      functionMap := map[];
    }

    /** Refuses a name that is already present and leaves the table as it was;
        otherwise records the signature under the name. */
    method InsertFunction(name: string, returnType: BuiltInType, formals: Formals) returns (inserted: bool)
      modifies this
      ensures inserted <==> name !in old(functionMap)
      ensures inserted ==> functionMap == old(functionMap)[name := FunctionEntry(name, returnType, formals)]
      ensures !inserted ==> functionMap == old(functionMap)
      ensures inserted ==> LookupFunction(name) == Some(FunctionEntry(name, returnType, formals))
      ensures old(Valid()) ==> Valid()
    {
      if name in functionMap {
        return false;
      }
      functionMap := functionMap[name := FunctionEntry(name, returnType, formals)];
      return true;
    }

    /** The entry stored under the name; None (the null pointer) exactly when absent. */
    function LookupFunction(name: string): (r: Option<FunctionEntry>)
      reads this
      ensures r.None? <==> name !in functionMap
      ensures r.Some? ==> r.value == functionMap[name]
      ensures r.Some? && Valid() ==> r.value.name == name
    {
      if name in functionMap then Some(functionMap[name]) else None
    }
  }
}

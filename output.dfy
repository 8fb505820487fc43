/** Text produced by the semantic-analysis front end: type names, the one-line
    diagnostics (whose printing ends the process in the program; here a
    diagnostic is a value and its text a string) and the `ScopePrinter`, which
    collects function lines and scope lines in two append-only buffers and renders them inside the global
    scope markers. Each buffer is a sequence of lines; every line ends with a
    newline when written out. */
module Output {
  import opened Wrappers
  import opened Text
  import opened Ast

  /** `toString`. The enumeration is closed, so its "unknown" default is unreachable. */
  function TypeName(t: BuiltInType): string {
    match t
    case INT => "int"
    case BOOL => "bool"
    case BYTE => "byte"
    case VOID => "void"
    case STRING => "string"
  }

  /** The inverse of TypeName. */
  function ParseTypeName(s: string): Option<BuiltInType> {
    if s == "int" then Some(INT)
    else if s == "bool" then Some(BOOL)
    else if s == "byte" then Some(BYTE)
    else if s == "void" then Some(VOID)
    else if s == "string" then Some(STRING)
    else None
  }

  lemma TypeNameRoundTrip(t: BuiltInType)
    ensures ParseTypeName(TypeName(t)) == Some(t)
    ensures |TypeName(t)| > 0 && ',' !in TypeName(t)
  {
  }

  function TypeNames(ts: seq<BuiltInType>): (ns: seq<string>)
    ensures |ns| == |ts|
    ensures forall i :: 0 <= i < |ts| ==> ns[i] == TypeName(ts[i])
  {
    seq(|ts|, i requires 0 <= i < |ts| => TypeName(ts[i]))
  }

  function ParseTypeNames(ns: seq<string>): Option<seq<BuiltInType>> {
    if |ns| == 0 then Some([])
    else match (ParseTypeName(ns[0]), ParseTypeNames(ns[1..]))
      case (Some(t), Some(ts)) => Some([t] + ts)
      case _ => None
  }

  /** A comma-joined list of type names determines the types it was made from. */
  lemma {:induction false} TypeListRoundTrip(ts: seq<BuiltInType>)
    ensures ParseTypeNames(SplitCommas(Join(TypeNames(ts)))) == Some(ts)
  {
    var ns := TypeNames(ts);
    forall i | 0 <= i < |ns| ensures |ns[i]| > 0 && ',' !in ns[i] {
      TypeNameRoundTrip(ts[i]);
    }
    SplitJoin(ns);
    ParseNamesOf(ts);
  }

  lemma {:induction false} ParseNamesOf(ts: seq<BuiltInType>)
    ensures ParseTypeNames(TypeNames(ts)) == Some(ts)
  {
    if |ts| > 0 {
      assert TypeNames(ts)[1..] == TypeNames(ts[1..]);
      TypeNameRoundTrip(ts[0]);
      ParseNamesOf(ts[1..]);
      assert [ts[0]] + ts[1..] == ts;
    }
  }

  /** One diagnostic per error function of the program. */
  datatype Diagnostic =
    | ErrorLex(lineno: int)
    | ErrorSyn(lineno: int)
    | ErrorUndef(lineno: int, id: string)
    | ErrorDefAsFunc(lineno: int, id: string)
    | ErrorDefAsVar(lineno: int, id: string)
    | ErrorDef(lineno: int, id: string)
    | ErrorUndefFunc(lineno: int, id: string)
    | ErrorMismatch(lineno: int)
    | ErrorPrototypeMismatch(lineno: int, id: string, paramTypes: seq<string>)
    | ErrorUnexpectedBreak(lineno: int)
    | ErrorUnexpectedContinue(lineno: int)
    | ErrorMainMissing
    | ErrorByteTooLarge(lineno: int, value: int)

  /** The text of the diagnostic's line. */
  function Message(d: Diagnostic): string {
    match d
    case ErrorMainMissing => "Program has no 'void main()' function"
    case _ => "line " + IntToString(d.lineno) + ":" + MessageBody(d)
  }

  /** What follows "line <n>:". */
  function MessageBody(d: Diagnostic): string
    requires !d.ErrorMainMissing?
  {
    match d
    case ErrorLex(_) => " lexical error"
    case ErrorSyn(_) => " syntax error"
    case ErrorUndef(_, id) => " variable " + id + " is not defined"
    case ErrorDefAsFunc(_, id) => " symbol " + id + " is a function"
    case ErrorDefAsVar(_, id) => " symbol " + id + " is a variable"
    case ErrorDef(_, id) => " symbol " + id + " is already defined"
    case ErrorUndefFunc(_, id) => " function " + id + " is not defined"
    case ErrorMismatch(_) => " type mismatch"
    case ErrorPrototypeMismatch(_, id, ps) =>
      " prototype mismatch, function " + id + " expects parameters (" + Join(ps) + ")"
    case ErrorUnexpectedBreak(_) => " unexpected break statement"
    case ErrorUnexpectedContinue(_) => " unexpected continue statement"
    case ErrorByteTooLarge(_, v) => " byte value " + IntToString(v) + " out of range"
  }

  /** Reads the line number back from a "line <n>:" prefix; None when there is none. */
  function ParseLinePrefix(s: string): Option<int> {
    if |s| < 5 || s[..5] != "line " then None
    else match IndexOf(s[5..], ':')
      case None => None
      case Some(k) => ParseInt(s[5..][..k])
  }

  /** Every diagnostic except the missing-main one starts with "line <n>:" for its
      own line number; the missing-main one has no line prefix. */
  lemma MessageLine(d: Diagnostic)
    ensures d.ErrorMainMissing? ==> ParseLinePrefix(Message(d)) == None
    ensures !d.ErrorMainMissing? ==> ParseLinePrefix(Message(d)) == Some(d.lineno)
  {
    if !d.ErrorMainMissing? {
      LinePrefixRoundTrip(d.lineno, MessageBody(d));
    } else {
      assert Message(d)[..5] == "Progr";
    }
  }

  /** "line <n>:" followed by any text reads back as line `n`. */
  lemma LinePrefixRoundTrip(lineno: int, body: string)
    ensures ParseLinePrefix("line " + IntToString(lineno) + ":" + body) == Some(lineno)
  {
    var s := "line " + IntToString(lineno) + ":" + body;
    var n := IntToString(lineno);
    assert s[..5] == "line ";
    assert s[5..] == n + ":" + body;
    assert ':' !in n;
    assert s[5..][|n|] == ':';
    assert s[5..][..|n|] == n;
    assert IndexOf(s[5..], ':') == Some(|n|);
    IntToStringRoundTrip(lineno);
  }

  /** The prototype-mismatch message lists the parameter types comma-separated
      between parentheses, and they can be read back from it. */
  lemma PrototypeMismatchLists(lineno: int, id: string, ts: seq<BuiltInType>)
    ensures var body := MessageBody(ErrorPrototypeMismatch(lineno, id, TypeNames(ts)));
      var open := " prototype mismatch, function " + id + " expects parameters (";
      body == open + Join(TypeNames(ts)) + ")" &&
      ParseTypeNames(SplitCommas(body[|open|..|body| - 1])) == Some(ts)
  {
    var open := " prototype mismatch, function " + id + " expects parameters (";
    var body := MessageBody(ErrorPrototypeMismatch(lineno, id, TypeNames(ts)));
    assert body[|open|..|body| - 1] == Join(TypeNames(ts));
    TypeListRoundTrip(ts);
  }

  /** `indent()`: two spaces per level; none for a level of zero or below. */
  function Indentation(level: int): (s: string)
    ensures |s| == if level > 0 then 2 * level else 0
    ensures forall i :: 0 <= i < |s| ==> s[i] == ' '
  {
    if level <= 0 then "" else Indentation(level - 1) + "  "
  }

  const BeginScopeMarker := "---begin scope---"
  const EndScopeMarker := "---end scope---"
  const BeginGlobalMarker := "---begin global scope---"
  const EndGlobalMarker := "---end global scope---"

  /** The `emitFunc` line: `id (t1,...,tn) -> ret`. */
  function FuncLine(id: string, returnType: BuiltInType, paramTypes: seq<BuiltInType>): string {
    id + " (" + Join(TypeNames(paramTypes)) + ") -> " + TypeName(returnType)
  }

  /** The `emitVar` line: `id type offset` after the current indentation. */
  function VarLine(level: int, id: string, ty: BuiltInType, offset: int): string {
    Indentation(level) + id + " " + TypeName(ty) + " " + IntToString(offset)
  }

  /** A snapshot of a ScopePrinter. */
  datatype PrinterState = PrinterState(globals: seq<string>, buffer: seq<string>, indentLevel: int)

  /** The printer's operations, as values. */
  datatype PrinterOp =
    | BeginOp
    | EndOp
    | VarOp(id: string, ty: BuiltInType, offset: int)
    | FuncOp(id: string, returnType: BuiltInType, paramTypes: seq<BuiltInType>)

  /** The effect of one operation on the printer's state. */
  function Step(p: PrinterState, op: PrinterOp): PrinterState {
    match op
    case BeginOp => p.(buffer := p.buffer + [Indentation(p.indentLevel + 1) + BeginScopeMarker], indentLevel := p.indentLevel + 1)
    case EndOp => p.(buffer := p.buffer + [Indentation(p.indentLevel) + EndScopeMarker], indentLevel := p.indentLevel - 1)
    case VarOp(id, ty, off) => p.(buffer := p.buffer + [VarLine(p.indentLevel, id, ty, off)])
    case FuncOp(id, r, ps) => p.(globals := p.globals + [FuncLine(id, r, ps)])
  }

  function Replay(p: PrinterState, ops: seq<PrinterOp>): PrinterState
    decreases |ops|
  {
    if |ops| == 0 then p else Replay(Step(p, ops[0]), ops[1..])
  }

  /** `operator<<`: the two buffers inside the global scope markers. */
  function Render(p: PrinterState): seq<string> {
    [BeginGlobalMarker] + p.globals + p.buffer + [EndGlobalMarker]
  }

  /** The function lines of a run of operations, in emission order. */
  function FuncLines(ops: seq<PrinterOp>): seq<string>
    decreases |ops|
  {
    if |ops| == 0 then []
    else (if ops[0].FuncOp? then [FuncLine(ops[0].id, ops[0].returnType, ops[0].paramTypes)] else [])
         + FuncLines(ops[1..])
  }

  /** The scope lines of a run of operations started at `level`, in emission order. */
  function ScopeLines(ops: seq<PrinterOp>, level: int): seq<string>
    decreases |ops|
  {
    if |ops| == 0 then []
    else
      var p := Step(PrinterState([], [], level), ops[0]);
      p.buffer + ScopeLines(ops[1..], p.indentLevel)
  }

  /** Replaying operations appends their function lines to the globals buffer and
      their scope lines to the scope buffer, each independently of how the two
      kinds were interleaved. */
  lemma {:induction false} ReplaySplits(p: PrinterState, ops: seq<PrinterOp>)
    ensures Replay(p, ops).globals == p.globals + FuncLines(ops)
    ensures Replay(p, ops).buffer == p.buffer + ScopeLines(ops, p.indentLevel)
    decreases |ops|
  {
    if |ops| > 0 {
      var q := Step(p, ops[0]);
      StepSplits(p, ops[0]);
      ReplaySplits(q, ops[1..]);
      assert Replay(p, ops) == Replay(q, ops[1..]);
      assert ScopeLines(ops, p.indentLevel)
          == Step(PrinterState([], [], p.indentLevel), ops[0]).buffer + ScopeLines(ops[1..], q.indentLevel);
    }
  }

  /** One operation adds its function line, if any, to the globals and its scope
      lines to the buffer; what it adds to the buffer depends only on the level. */
  lemma StepSplits(p: PrinterState, op: PrinterOp)
    ensures Step(p, op).globals == p.globals + (if op.FuncOp? then [FuncLine(op.id, op.returnType, op.paramTypes)] else [])
    ensures Step(p, op).buffer == p.buffer + Step(PrinterState([], [], p.indentLevel), op).buffer
    ensures Step(p, op).indentLevel == Step(PrinterState([], [], p.indentLevel), op).indentLevel
  {
  }

  /** From a fresh printer, the rendering is the global header, then every function
      line, then every scope line, then the global footer: function lines always
      come before scope blocks, whatever order the calls were made in. */
  lemma RenderOrder(ops: seq<PrinterOp>)
    ensures Render(Replay(PrinterState([], [], 0), ops))
         == [BeginGlobalMarker] + FuncLines(ops) + ScopeLines(ops, 0) + [EndGlobalMarker]
  {
    ReplaySplits(PrinterState([], [], 0), ops);
  }

  /** A begin marker followed by an end marker restores the level, and both are
      written at the same indentation, one level deeper than before. */
  lemma BeginEndPair(p: PrinterState)
    ensures var q := Replay(p, [BeginOp, EndOp]);
      q.indentLevel == p.indentLevel && q.globals == p.globals &&
      q.buffer == p.buffer + [Indentation(p.indentLevel + 1) + BeginScopeMarker,
                              Indentation(p.indentLevel + 1) + EndScopeMarker]
  {
  }

  class ScopePrinter {
    var globalsBuffer: seq<string>
    var buffer: seq<string>
    var indentLevel: int

    function State(): PrinterState
      reads this
    {
      PrinterState(globalsBuffer, buffer, indentLevel)
    }

    constructor ()
      ensures State() == PrinterState([], [], 0)
    {
      globalsBuffer, buffer, indentLevel := [], [], 0;
    }

    /** `indent()`, built by its loop. */
    method Indent() returns (result: string)
      ensures |result| == (if indentLevel > 0 then 2 * indentLevel else 0)
      ensures forall i :: 0 <= i < |result| ==> result[i] == ' '
      ensures result == Indentation(indentLevel)
    {
      result := "";
      var i := 0;
      while i < indentLevel
        invariant 0 <= i && (indentLevel > 0 ==> i <= indentLevel) && (indentLevel <= 0 ==> i == 0)
        invariant result == Indentation(i)
      {
        result := result + "  ";
        i := i + 1;
      }
    }

    method BeginScope()
      modifies this
      ensures indentLevel == old(indentLevel) + 1
      ensures buffer == old(buffer) + [Indentation(indentLevel) + BeginScopeMarker]
      ensures globalsBuffer == old(globalsBuffer)
      ensures State() == Step(old(State()), BeginOp)
    {
      indentLevel := indentLevel + 1;
      var ind := Indent();
      buffer := buffer + [ind + BeginScopeMarker];
    }

    method EndScope()
      modifies this
      ensures indentLevel == old(indentLevel) - 1
      ensures buffer == old(buffer) + [Indentation(old(indentLevel)) + EndScopeMarker]
      ensures globalsBuffer == old(globalsBuffer)
      ensures State() == Step(old(State()), EndOp)
    {
      var ind := Indent();
      buffer := buffer + [ind + EndScopeMarker];
      indentLevel := indentLevel - 1;
    }

    method EmitVar(id: string, ty: BuiltInType, offset: int)
      modifies this
      ensures buffer == old(buffer) + [Indentation(indentLevel) + id + " " + TypeName(ty) + " " + IntToString(offset)]
      ensures globalsBuffer == old(globalsBuffer) && indentLevel == old(indentLevel)
      ensures State() == Step(old(State()), VarOp(id, ty, offset))
    {
      var ind := Indent();
      buffer := buffer + [ind + id + " " + TypeName(ty) + " " + IntToString(offset)];
    }

    /** The parameter-type part of `emitFunc`'s loop: each name, followed by a
        comma unless it is the last. */
    static method JoinTypeNames(paramTypes: seq<BuiltInType>) returns (joined: string)
      ensures joined == Join(TypeNames(paramTypes))
    {
      ghost var names := TypeNames(paramTypes);
      joined := "";
      var i := 0;
      while i < |paramTypes|
        invariant 0 <= i <= |paramTypes|
        invariant joined == Join(names[..i]) + (if 0 < i < |paramTypes| then "," else "")
      {
        JoinExtend(names, i);
        joined := joined + TypeName(paramTypes[i]);
        if i != |paramTypes| - 1 {
          joined := joined + ",";
        }
        i := i + 1;
      }
      assert names[..|paramTypes|] == names;
    }

    method EmitFunc(id: string, returnType: BuiltInType, paramTypes: seq<BuiltInType>)
      modifies this
      ensures globalsBuffer == old(globalsBuffer) + [id + " (" + Join(TypeNames(paramTypes)) + ") -> " + TypeName(returnType)]
      ensures buffer == old(buffer) && indentLevel == old(indentLevel)
      ensures State() == Step(old(State()), FuncOp(id, returnType, paramTypes))
    {
      var params := JoinTypeNames(paramTypes);
      globalsBuffer := globalsBuffer + [id + " (" + params + ") -> " + TypeName(returnType)];
    }

    /** `operator<<`. */
    function Rendered(): (lines: seq<string>)
      reads this
      ensures lines == Render(State())
      ensures |lines| == |globalsBuffer| + |buffer| + 2
      ensures lines[0] == BeginGlobalMarker && lines[|lines| - 1] == EndGlobalMarker
      ensures lines[1..1 + |globalsBuffer|] == globalsBuffer
      ensures lines[1 + |globalsBuffer|..|lines| - 1] == buffer
    {
      [BeginGlobalMarker] + globalsBuffer + buffer + [EndGlobalMarker]
    }
  }
}

/** The syntax tree of the checked language: the closed operator and type
    enumerations and one datatype variant per node class. Every node carries the
    source line it was built at. A field the program leaves as `nullptr` is an
    `Option` here; a function call is one `Call` value that can stand both as an
    expression (`CallExp`) and as a statement (`CallStmt`). */
module Ast {
  import opened Wrappers

  /** Arithmetic operations. */
  datatype BinOpType = ADD | SUB | MUL | DIV

  /** Relational operations. */
  datatype RelOpType = EQ | NE | LT | GT | LE | GE

  /** Built-in types; also the type recorded for every symbol. */
  datatype BuiltInType = VOID | BOOL | BYTE | INT | STRING

  /** A type symbol. */
  datatype Type = Type(line: int, ty: BuiltInType)

  /** An identifier. */
  datatype ID = ID(line: int, value: string)

  datatype Exp =
    | Num(line: int, value: int)
    | NumB(line: int, value: int)
    | String(line: int, text: string)
    | Bool(line: int, truth: bool)
    | IdExp(id: ID)
    | BinOp(line: int, left: Exp, right: Exp, op: BinOpType)
    | RelOp(line: int, left: Exp, right: Exp, relOp: RelOpType)
    | Not(line: int, exp: Exp)
    | And(line: int, left: Exp, right: Exp)
    | Or(line: int, left: Exp, right: Exp)
    | Cast(line: int, exp: Exp, targetType: Type)
    | CallExp(call: Call)

  /** An ordered list of expressions (the arguments of a call). */
  datatype ExpList = ExpList(line: int, exps: seq<Exp>)

  /** A function call: an expression and a statement at once. */
  datatype Call = Call(line: int, funcId: ID, args: ExpList)

  /** An ordered list of statements (a block). */
  datatype Statements = Statements(line: int, statements: seq<Statement>)

  datatype Statement =
    | Block(block: Statements)
    | Break(line: int)
    | Continue(line: int)
    | Return(line: int, returnExp: Option<Exp>)
    | If(line: int, condition: Exp, thenBranch: Statement, otherwise: Option<Statement>)
    | While(line: int, condition: Exp, body: Statement)
    | VarDecl(line: int, varId: ID, varType: Type, initExp: Option<Exp>)
    | Assign(line: int, target: ID, value: Exp)
    | CallStmt(call: Call)

  /** A formal parameter. */
  datatype Formal = Formal(line: int, id: ID, formalType: Type)

  /** An ordered list of formal parameters. */
  datatype Formals = Formals(line: int, formals: seq<Formal>)

  datatype FuncDecl = FuncDecl(line: int, id: ID, returnType: Type, formals: Formals, body: Statements)

  /** The whole program: an ordered list of function declarations. */
  datatype Funcs = Funcs(line: int, funcs: seq<FuncDecl>)

  /** The declared types of a parameter list, in order. */
  function ParamTypes(f: Formals): (ts: seq<BuiltInType>)
    ensures |ts| == |f.formals|
    ensures forall i :: 0 <= i < |ts| ==> ts[i] == f.formals[i].formalType.ty
  {
    seq(|f.formals|, i requires 0 <= i < |f.formals| => f.formals[i].formalType.ty)
  }
}

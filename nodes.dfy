/** The node constructors that do more than store their arguments, and the list
    nodes' in-place `push_front` / `push_back`. The enclosing line number
    (taken from the lexer's current line in the program) and the numeric value of
    a literal (parsed there with `std::stoi`) are constructor parameters here. */
module Nodes {
  import opened Wrappers
  import opened Ast

  /** `value.substr(1, value.size() - 2)`: drops the first and the last character.
      A one-character input yields the empty string (the count wraps to a huge
      unsigned value and `substr` stops at the end); an empty input makes
      `substr` throw, which is None here. */
  function StripQuotes(raw: string): (r: Option<string>)
    ensures r.None? <==> |raw| == 0
    ensures |raw| == 1 ==> r == Some("")
    ensures |raw| >= 2 ==> r.Some? && |r.value| == |raw| - 2 && raw == [raw[0]] + r.value + [raw[|raw| - 1]]
  {
    if |raw| == 0 then None
    else if |raw| == 1 then Some("")
    else Some(raw[1..|raw| - 1])
  }

  /** A quoted literal as the lexer hands it over loses exactly its quotes. */
  lemma QuotedLiteral(v: string)
    ensures StripQuotes("\"" + v + "\"") == Some(v)
  {
    var raw := "\"" + v + "\"";
    assert raw[1..|raw| - 1] == v;
  }

  /** The `String` node built from the lexer's text, quotes included. */
  function StringNode(line: int, raw: string): (e: Option<Exp>)
    ensures e.None? <==> |raw| == 0
    ensures e.Some? ==> e.value.String? && e.value.line == line && Some(e.value.text) == StripQuotes(raw)
  {
    match StripQuotes(raw)
    case None => None
    case Some(v) => Some(String(line, v))
  }

  /** `Call(func_id)`: a call of a parameterless function gets an empty argument list. */
  function CallNoArgs(line: int, funcId: ID): (c: Call)
    ensures c.funcId == funcId && c.args.exps == [] && c.line == line
  {
    Call(line, funcId, ExpList(line, []))
  }

  /** `Return(exp = nullptr)`. */
  function NewReturn(line: int, exp: Option<Exp> := None): (s: Statement)
    ensures s.Return? && s.line == line && s.returnExp == exp
  {
    Return(line, exp)
  }

  /** `If(condition, then, otherwise = nullptr)`. */
  function NewIf(line: int, condition: Exp, thenBranch: Statement, otherwise: Option<Statement> := None): (s: Statement)
    ensures s.If? && s.condition == condition && s.thenBranch == thenBranch && s.otherwise == otherwise
  {
    If(line, condition, thenBranch, otherwise)
  }

  /** `VarDecl(id, type, init_exp = nullptr)`. */
  function NewVarDecl(line: int, id: ID, varType: Type, initExp: Option<Exp> := None): (s: Statement)
    ensures s.VarDecl? && s.varId == id && s.varType == varType && s.initExp == initExp
  {
    VarDecl(line, id, varType, initExp)
  }

  /** Leaving out the optional child of `Return`, `If` or `VarDecl` leaves it absent. */
  lemma OmittedChildIsAbsent(line: int, c: Exp, t: Statement, id: ID, ty: Type)
    ensures NewReturn(line).returnExp.None?
    ensures NewIf(line, c, t).otherwise.None?
    ensures NewVarDecl(line, id, ty).initExp.None?
  {
  }

  /** The mutable element vector of `ExpList`, `Statements`, `Formals` and `Funcs`,
      which the parser grows one element at a time before the node goes into the tree. */
  class NodeList<T> {
    var line: int
    var items: seq<T>

    /** The default constructor: no elements. */
    constructor Empty(line: int)
      ensures this.line == line && items == []
    {
      this.line := line;
      items := [];
    }

    /** The one-element constructor. */
    constructor Single(line: int, x: T)
      ensures this.line == line && items == [x]
    {
      this.line := line;
      items := [x];
    }

    /** Inserts at the front: the new element is at index 0, the old ones follow in order. */
    method PushFront(x: T)
      modifies this
      ensures items == [x] + old(items)
      ensures |items| == |old(items)| + 1 && items[0] == x && items[1..] == old(items)
      ensures line == old(line)
    {
      items := [x] + items;
    }

    /** Appends at the end: the existing elements stay where they were. */
    method PushBack(x: T)
      modifies this
      ensures items == old(items) + [x]
      ensures |items| == |old(items)| + 1 && items[|items| - 1] == x && items[..|old(items)|] == old(items)
      ensures line == old(line)
    {
      items := items + [x];
    }
  }
}

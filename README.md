# Semantic-analysis front end: symbol tables, scope printer and tree visitor

This project models the core of a front end for a small typed language written in C++. It has four parts:

- **Syntax tree** (`ast.dfy`, `nodes.dfy`): the node classes of `nodes.hpp` with their closed enumerations, as datatypes. It also holds the constructors of `nodes.cpp` that do more than store their arguments: quote stripping for `String`, and `Call` with no arguments. The list nodes' in-place `push_front`/`push_back` are methods of a `NodeList` class.
- **Symbol tables** (`symbols.dfy`): `Scope`, `SymbolTable` and `FunctionSymbolTable` are classes.
  - The table's stack of scopes is a sequence, innermost last.
  - `Scope` and `SymbolTable` and their operations are also written as pure transition functions on a value snapshot (`ScopeState`, `TableState`). Their methods are proved to move the snapshot by those functions. `FunctionSymbolTable` states its map directly.
  - Well-bracketed runs of declarations and nested blocks (`Op`, `Apply`) carry the stack discipline to any nesting depth, with either end of scope.
  - The lemmas cover the offset arithmetic, the stack discipline, innermost-first lookup with shadowing, insert-once and the outcomes of `validateFunctionCall`.
- **Text output** (`output.dfy`, `text.dfy`): type names, the one-line diagnostics (a value and its text here, where the program prints and exits), and the `ScopePrinter` as a class with two append-only line buffers and an indent level.
  - The printer is also described by a replay of its operations.
  - From that replay, the rendering is proved to be the function lines, then the scope lines, wrapped in the global markers, whatever order the calls came in.
  - Decimal rendering and comma joining come with their inverses. From a diagnostic's text the line number can be read back (`Output.MessageLine`, `Output.LinePrefixRoundTrip`), and so can a comma-joined type list (`Output.TypeListRoundTrip`) and both lists of a prototype-mismatch diagnostic (`Output.PrototypeMismatchLists`).
- **Tree walk** (`visitor.dfy`): `SemanticVisitor` is a class with its indentation and prefix stacks, the standard-output lines it has written, the scope printer and the symbol table.
  - Every `visit` overload is a method. Each is proved to append exactly its node's trace: the drawn lines plus the scope-printer lines, computed by pure functions over the tree.
  - Each is also proved to leave both stacks, the printer's level and globals buffer, and the symbol table as it found them.
  - Lemmas about the trace functions prove two things. Every line drawn for a subtree sits inside that subtree's gutter. The scope-printer lines of every subtree close each scope they open, at the indentation it was opened with (`Drawn`).
  - Further lemmas place each direct child in its parent's lines and state which child gets the last-child prefix: the final statement of a block, the first argument and the first parameter (both visited last), the final function, an if's then-branch only without an else, and a declaration's type only without an initializer.

The lexer's current line (`yylineno`) and the value parsed by `std::stoi` are constructor parameters. Standard output is a sequence of lines held in the visitor.

## Model

| member | source | states |
|---|---|---|
| Text.IntToString | visitor.cpp:61-65 | decimal rendering as `std::to_string` does it: non-empty, digits only, a leading minus exactly for negative values |
| Text.IntToStringRoundTrip | output.cpp:94-96 | reading the rendering back gives the integer, so a printed line number or value determines the number |
| Text.IntToStringInjective | output.cpp:121-123 | distinct offsets and values are printed differently |
| Text.SplitJoin | output.cpp:129-133 | joining non-empty, comma-free fields with "," (no trailing comma) and splitting at the commas gives the fields back |
| Text.JoinExtend | output.cpp:69-73 | a comma goes between consecutive elements and nowhere else, element by element |
| Nodes.StripQuotes | nodes.cpp:15-18 | the first and last characters are removed; one character gives ""; an empty input is the `substr` exception (None) |
| Nodes.QuotedLiteral | nodes.cpp:15-18 | a literal wrapped in double quotes yields exactly its content |
| Nodes.StringNode | nodes.cpp:15-18 | the `String` node holds the quote-stripped text and the line; it exists exactly when the input is non-empty |
| Nodes.CallNoArgs | nodes.cpp:56-57 | `Call(func_id)` has that identifier and an empty argument list |
| Nodes.NewReturn | nodes.hpp:323-329 | a `Return` built without an expression has an absent expression |
| Nodes.NewIf | nodes.hpp:337-348 | an `If` stores condition, then-branch and the optional else-branch unchanged |
| Nodes.NewVarDecl | nodes.hpp:372-382 | a `VarDecl` stores identifier, type and the optional initializer unchanged |
| Nodes.OmittedChildIsAbsent | nodes.hpp:325-382 | leaving out the defaulted argument of `Return`, `If` or `VarDecl` leaves that child absent |
| Nodes.NodeList.Empty | nodes.hpp:250 | the default list constructor: no elements |
| Nodes.NodeList.Single | nodes.cpp:43 | the one-element constructor (also nodes.cpp:59, 87, 102): exactly that element |
| Nodes.NodeList.PushFront | nodes.cpp:45-47 | the new element is at index 0 and the old ones follow in order (also nodes.cpp:61-63, 89-91, 104-106) |
| Nodes.NodeList.PushBack | nodes.cpp:49-51 | the new element is last and the old ones keep their positions (also nodes.cpp:65-67, 93-95, 108-110) |
| Output.TypeNameRoundTrip | output.cpp:7-22 | each built-in type has its own name, non-empty and comma-free, and the name determines the type |
| Output.TypeListRoundTrip | output.cpp:125-136 | the comma-joined parameter types of a function line determine the types, in order |
| Output.ParseNamesOf | output.cpp:129-130 | the name list of a type list reads back to the type list |
| Output.MessageLine | output.cpp:26-97 | every diagnostic but the missing-main one starts "line <n>:" with its own line number; the missing-main one has no line prefix |
| Output.LinePrefixRoundTrip | output.cpp:27 | "line <n>:" followed by any text reads back as line n |
| Output.PrototypeMismatchLists | output.cpp:66-77 | the prototype-mismatch text is the template with the comma-separated types in parentheses, and the types can be read back from it |
| Output.Indentation | output.cpp:103-109 | exactly two spaces per level, none at level 0 or below |
| Output.ScopePrinter.constructor | output.cpp:101 | both buffers empty, level 0 |
| Output.ScopePrinter.Indent | output.cpp:103-109 | the loop builds 2·indentLevel spaces (none for a non-positive level) |
| Output.ScopePrinter.BeginScope | output.cpp:111-114 | the level goes up by one, then one begin marker is written at the new level's indentation; globals unchanged |
| Output.ScopePrinter.EndScope | output.cpp:116-119 | one end marker is written at the current indentation, then the level goes down by one; globals unchanged |
| Output.ScopePrinter.EmitVar | output.cpp:121-123 | one line `indent id type offset` is appended to the scope buffer; globals and level unchanged |
| Output.ScopePrinter.JoinTypeNames | output.cpp:129-133 | the loop writes the type names with a comma after each but the last |
| Output.ScopePrinter.EmitFunc | output.cpp:125-136 | one line `id (t1,...,tn) -> ret` is appended to the globals buffer only; an empty list gives `()` |
| Output.ScopePrinter.Rendered | output.cpp:138-144 | the global begin marker, the globals buffer, the scope buffer, the global end marker, in that order |
| Output.ReplaySplits | output.cpp:111-136 | a run of printer calls appends its function lines to the globals and its scope lines to the buffer, independently of how they interleave |
| Output.StepSplits | output.cpp:111-136 | what one printer call appends to the scope buffer depends only on the level |
| Output.RenderOrder | output.cpp:138-144 | from a fresh printer, all function lines come before all scope lines in the rendering, whatever the call order |
| Output.BeginEndPair | output.cpp:111-119 | begin then end restores the level and writes both markers one level deeper than before, at the same indentation |
| Symbols.First | symbols.cpp:120-124 | the earliest-inserted symbol of a scope with the name; none exactly when no symbol has it |
| Symbols.FirstAt | symbols.cpp:120-124 | scanning stops at the first index that has the name |
| Symbols.VariablesGetConsecutiveOffsets | symbols.cpp:41-45 | n locals declared from counter k get offsets k, ..., k+n-1, are appended in order and leave the counter at k+n |
| Symbols.ArgsGetDescendingOffsets | symbols.cpp:35-39 | n parameters declared from counter k get offsets k, ..., k-n+1 and leave the counter at k-n |
| Symbols.DeclareMovesCounters | symbols.cpp:35-45 | declarations move each counter by the number of declarations of its kind, keep earlier symbols and never touch the initial counters |
| Symbols.DeclareOnlyTouchesTop | symbols.cpp:100-116 | declarations through the table change only the top scope and move the matching running counter with it |
| Symbols.BeginKeepsInStep | symbols.cpp:88-90 | opening a scope keeps the running counters equal to the top scope's |
| Symbols.AddKeepsInStep | symbols.cpp:100-116 | adding a parameter or a local keeps the running counters equal to the top scope's |
| Symbols.EndRestoringKeepsInStep | symbols.cpp:92-98 | the corrected end keeps the running counters equal to those of the scope now on top |
| Symbols.ScopeRoundTripAsWritten | symbols.cpp:92-98 | as written, opening a scope, declaring in it and closing it restores the stack but leaves the counters advanced by what was declared |
| Symbols.ScopeRoundTripRestoring | symbols.cpp:88-98 | with the corrected end, the same sequence gives back exactly the table before |
| Symbols.EndsAgreeOnEmptyScope | symbols.cpp:88-98 | opening and closing with nothing declared gives back the table, with either end |
| Symbols.ApplyOnlyMovesTop | symbols.cpp:88-116 | with either end, a well-bracketed run of declarations and nested blocks leaves the scopes below the top as they were, keeps the top scope's initial counters and moves its current counters by the run's direct declarations only |
| Symbols.NestedRoundTripRestoring | symbols.cpp:88-98 | with the corrected end, opening a scope, running any well-bracketed block in it (inner blocks included) and closing it gives back exactly the table before |
| Symbols.NestedRoundTripAsWritten | symbols.cpp:92-98 | as written, the same restores the stack of scopes, and the running counters end advanced by the block's direct declarations, whatever its inner blocks declared |
| Symbols.ApplyRestoringKeepsInStep | symbols.cpp:88-116 | with the corrected end, any well-bracketed run keeps the running counters equal to the top scope's |
| Symbols.NestedCounterDrift | symbols.cpp:92-98 | as written, in `{ x; { y; } z; }` the inner end leaves the running counter at 2 while the outer scope's is 1; `z` still gets offset 1, and the outer end sets the counter to 2 |
| Symbols.SecondFunctionParameterOffset | symbols.cpp:92-98 | as written, the first parameter of a second function body gets offset -2 after a body that declared one; with the corrected end it gets -1 |
| Symbols.ResolveSound | symbols.cpp:118-127 | what lookup finds is the first symbol of that name in some scope, and no scope further in has the name |
| Symbols.ResolveNoneExactly | symbols.cpp:118-127 | lookup finds nothing exactly when no scope has a symbol of that name |
| Symbols.InnerDeclarationShadows | symbols.cpp:109-127 | a local declared in a just-opened scope gets the running positive offset and is what lookup finds, whatever the outer scopes hold |
| Symbols.LookupAfterEnd | symbols.cpp:92-127 | after a scope is closed (with either end), lookup answers as before the scope was opened, so outer symbols are found again |
| Symbols.Scope.constructor | symbols.cpp:29-33 | a new scope has no symbols and its current counters equal its seeds |
| Symbols.Scope.AddArg | symbols.cpp:35-39 | returns the current negative offset, appends one symbol carrying it, and moves only the negative counter, down by one |
| Symbols.Scope.AddVariable | symbols.cpp:41-45 | returns the current positive offset, appends one symbol carrying it, and moves only the positive counter, up by one |
| Symbols.SymbolTable.constructor | symbols.cpp:84-86 | an empty stack, positive counter 0, negative counter -1 |
| Symbols.SymbolTable.BeginScope | symbols.cpp:88-90 | pushes one scope seeded with the running counters; the counters are unchanged |
| Symbols.SymbolTable.EndScope | symbols.cpp:92-98 | on a non-empty stack, pops one scope and copies its current counters into the running ones; on an empty stack nothing changes |
| Symbols.SymbolTable.EndScopeRestoring | symbols.cpp:92-98 | the corrected end: pops one scope and restores the counters it was seeded with |
| Symbols.SymbolTable.AddArg | symbols.cpp:100-107 | on a non-empty stack, the top scope's `addArg` plus the running negative counter down by one; on an empty stack -1 and no change |
| Symbols.SymbolTable.AddVariable | symbols.cpp:109-116 | on a non-empty stack, the top scope's `addVariable` plus the running positive counter up by one; on an empty stack -1 and no change |
| Symbols.SymbolTable.Lookup | symbols.cpp:118-127 | the nested loops return exactly the innermost-first, earliest-inserted match, and it carries the name |
| Symbols.SymbolTable.ValidateFunctionCall | symbols.cpp:129-154 | an unknown name is the undefined-function error; otherwise a count difference is the prototype-mismatch error; otherwise a positional type difference is the type mismatch; it passes exactly when the types agree |
| Symbols.FunctionSymbolTable.constructor | symbols.cpp:61 | an empty map |
| Symbols.FunctionSymbolTable.InsertFunction | symbols.cpp:64-70 | a name already present is refused and the map is unchanged; otherwise the entry is recorded under the name and lookup yields it |
| Symbols.FunctionSymbolTable.LookupFunction | symbols.cpp:72-78 | the stored entry; null (None) exactly when the name is absent |
| Visitor.OperatorSymbolsRoundTrip | visitor.cpp:80-143 | each arithmetic and relational operator is printed with its own symbol, and the symbol determines the operator |
| Visitor.ExpDrawn | visitor.cpp:60-221 | every line drawn for an expression lies inside its gutter, and its scope-printer lines close every scope they open |
| Visitor.CallDrawn | visitor.cpp:207-221 | a call's identifier and arguments sit inside a matching begin/end pair one level in, and inside the call's gutter |
| Visitor.ExpListDrawn | visitor.cpp:193-205 | an argument list is drawn inside its gutter with balanced scope lines |
| Visitor.ArgumentsDrawn | visitor.cpp:196-204 | the arguments visited from the last to the first are drawn one level into the list's gutter, with balanced scope lines |
| Visitor.StatementDrawn | visitor.cpp:223-336 | every statement is drawn inside its gutter, and its scope-printer lines close every scope they open, at the indentation opened |
| Visitor.IfDrawn | visitor.cpp:259-283 | an `if` brackets its condition and branches with one begin/end pair |
| Visitor.OptionalExpDrawn | visitor.cpp:252-256 | an optional expression, when present, is drawn one level into the gutter |
| Visitor.ElseDrawn | visitor.cpp:276-280 | an optional else-branch, when present, is drawn one level into the gutter |
| Visitor.StatementsDrawn | visitor.cpp:223-239 | a block brackets its statements with one begin/end pair |
| Visitor.StatementsUpToDrawn | visitor.cpp:228-236 | the statements visited first to last are drawn one level into the block's gutter |
| Visitor.FormalDrawn | visitor.cpp:338-350 | a parameter is drawn inside its gutter and writes no scope line |
| Visitor.FormalsFromLength | visitor.cpp:338-363 | each parameter writes three lines and no scope line |
| Visitor.ParameterHeading | visitor.cpp:352-363 | the `Formal` line of parameter j follows the lines of the parameters visited before it, and is drawn with the last-child margin (`enter_last_child`) exactly when j is the first parameter |
| Visitor.VarDeclTypeLine | visitor.cpp:300-320 | a declaration's type line is drawn with the last-child margin exactly when there is no initializer |
| Visitor.FormalsFromDrawn | visitor.cpp:355-363 | the parameters visited from the last to the first are drawn one level into the gutter |
| Visitor.FuncDeclDrawn | visitor.cpp:366-384 | a function declaration is drawn inside its gutter with balanced scope lines |
| Visitor.FuncsUpToDrawn | visitor.cpp:389-397 | the functions visited first to last are drawn one level into the program's gutter |
| Visitor.ProgramDrawn | visitor.cpp:386-398 | the whole program is drawn inside the root's gutter, and its scope-printer lines close every scope they open, each at its own indentation |
| Visitor.StatementPlace | visitor.cpp:228-236 | the lines of statement j follow those of the statements before it, unchanged by what comes after, and it is drawn with the last-child margin exactly when it is the final statement |
| Visitor.ArgumentPlace | visitor.cpp:196-204 | the lines of argument j follow those of the arguments after it, which the reverse loop visits first, and it is drawn with the last-child margin exactly when it is the first argument |
| Visitor.FunctionsGrow | visitor.cpp:389-397 | the lines written for the first j functions are a prefix of those written for any later point of the walk |
| Visitor.FunctionHeading | visitor.cpp:389-397 | the `FuncDecl` line of function j follows the lines of the functions before it and is drawn with the last-child margin exactly when j is the final function |
| Visitor.DrawnBracketed | visitor.cpp:209-220 | a begin/end pair around lines balanced one level deeper is balanced at the outer level |
| Visitor.SemanticVisitor.constructor | visitor.cpp:36 | each stack starts with exactly one entry (the last-child indent and prefix); nothing written; fresh printer and table |
| Visitor.SemanticVisitor.PrintIndented | visitor.cpp:38-43 | one line: every indentation string but the last, then the innermost prefix, then the text; stacks unchanged |
| Visitor.SemanticVisitor.EnterChild | visitor.cpp:45-48 | pushes the child indent and prefix on both stacks |
| Visitor.SemanticVisitor.EnterLastChild | visitor.cpp:50-53 | pushes the last-child indent and prefix on both stacks |
| Visitor.SemanticVisitor.LeaveChild | visitor.cpp:55-58 | pops one entry from each stack |
| Visitor.SemanticVisitor.OpenScope | visitor.cpp:209-210 | the printer's begin marker, the level up by one and a new table scope |
| Visitor.SemanticVisitor.CloseScope | visitor.cpp:219-220 | the printer's end marker, the level down by one and the table's end of scope |
| Visitor.SemanticVisitor.VisitType | visitor.cpp:145-147 | one line `Type: <name>`; all other state as found |
| Visitor.SemanticVisitor.VisitId | visitor.cpp:76-78 | one line `ID: <name>`; all other state as found |
| Visitor.SemanticVisitor.ExpChild | visitor.cpp:100-106 | enter, visit, leave: the child's trace one level into the gutter, with both stacks restored |
| Visitor.SemanticVisitor.VisitLiteral | visitor.cpp:60-74 | one line for `Num`, `NumB`, `String` or `Bool` with its rendered value |
| Visitor.SemanticVisitor.BinaryNode | visitor.cpp:80-107 | the node's line, then the left operand as a child and the right as the last child (also `RelOp`, `And`, `Or`) |
| Visitor.SemanticVisitor.VisitExp | visitor.cpp:60-191 | each expression appends exactly its trace and leaves stacks, printer level and globals, and table as found |
| Visitor.SemanticVisitor.VisitNot | visitor.cpp:161-167 | the `Not` line, then the operand as the last child |
| Visitor.SemanticVisitor.VisitCast | visitor.cpp:149-159 | the `Cast` line, the operand as a child, the target type as the last child |
| Visitor.SemanticVisitor.VisitCall | visitor.cpp:207-221 | no line of its own; the identifier and then the argument list, as the last child, inside a begin/end pair on both printer and table, and the table is back as found |
| Visitor.SemanticVisitor.VisitExpList | visitor.cpp:193-205 | the `ExpList` line, then the arguments |
| Visitor.SemanticVisitor.VisitArguments | visitor.cpp:196-204 | the reverse loop visits the arguments from the last to the first; only the first argument, visited last, gets the last-child prefix |
| Visitor.SemanticVisitor.VisitStatements | visitor.cpp:223-239 | no line of its own; the statements inside a begin/end pair on both printer and table |
| Visitor.SemanticVisitor.VisitBlockBody | visitor.cpp:228-236 | the forward loop visits the statements first to last; only the final one gets the last-child prefix |
| Visitor.SemanticVisitor.StatementStep | visitor.cpp:229-235 | one turn of that loop: `ss[i]` appended as a child, last exactly when it is the final statement |
| Visitor.SemanticVisitor.VisitStatement | visitor.cpp:241-336 | each statement appends exactly its trace and leaves stacks, printer level and globals, and table as found; `Break` and `Continue` print their one line |
| Visitor.SemanticVisitor.VisitReturn | visitor.cpp:249-257 | the `Return` line, then the expression as the last child only when there is one |
| Visitor.SemanticVisitor.OptionalExpChild | visitor.cpp:252-256 | an absent expression writes nothing |
| Visitor.SemanticVisitor.VisitIf | visitor.cpp:259-283 | no line of its own; condition, then-branch and else-branch inside a begin/end pair on both printer and table |
| Visitor.SemanticVisitor.IfChildren | visitor.cpp:264-280 | the condition as a child, then the branches |
| Visitor.SemanticVisitor.IfBranches | visitor.cpp:268-280 | the then-branch gets the last-child prefix exactly when there is no else |
| Visitor.SemanticVisitor.ElseChild | visitor.cpp:276-280 | the else-branch, when present, as the last child; nothing otherwise |
| Visitor.SemanticVisitor.VisitWhile | visitor.cpp:285-298 | no line of its own; the condition as a child and the body as the last child inside a begin/end pair |
| Visitor.SemanticVisitor.VisitVarDecl | visitor.cpp:300-320 | the `VarDecl` line, the identifier, the type (last child exactly when there is no initializer), then the initializer when present |
| Visitor.SemanticVisitor.VisitAssign | visitor.cpp:322-336 | the `Assign` line, the identifier as a child, a lookup with no effect, then the expression as the last child |
| Visitor.SemanticVisitor.VisitFormal | visitor.cpp:338-350 | the `Formal` line, the identifier as a child, the type as the last child; the table is not touched |
| Visitor.SemanticVisitor.VisitFormals | visitor.cpp:352-364 | the `Formals` line, then the parameters |
| Visitor.SemanticVisitor.VisitParameters | visitor.cpp:355-363 | the reverse loop visits the parameters from the last to the first; only the first gets the last-child prefix |
| Visitor.SemanticVisitor.VisitFuncDecl | visitor.cpp:366-384 | the `FuncDecl` line, then identifier, return type and parameters as children and the body as the last child |
| Visitor.SemanticVisitor.VisitFuncs | visitor.cpp:386-398 | the `Funcs` line, then the functions |
| Visitor.SemanticVisitor.VisitFunctions | visitor.cpp:389-397 | the forward loop visits the functions first to last; only the final one gets the last-child prefix |
| Visitor.SemanticVisitor.FuncStep | visitor.cpp:390-396 | one turn of that loop: `fs[i]` appended as a child, last exactly when it is the final function |

## Left out

- main.cpp is not part of this model. It is the driver: it runs the generated parser and a printing visitor that are not among these files.
- Standard output, the string streams and `exit(0)`: the diagnostics are values with their text, the scope printer's streams are sequences of lines, and standard output is the visitor's `out` field. What `exit(0)` stops after a diagnostic is not modelled.
- `yylineno` and `std::stoi`: the line number and the numeric value of a literal are parameters. A numeral out of the `int` range (where `std::stoi` throws) is not modelled.
- The offsets, the running counters, the printer's `indentLevel` and the line numbers are 32-bit `int` in the program, where signed overflow is undefined. The model uses unbounded integers, so the behaviour past 2^31 - 1 declarations or nesting levels is not modelled.
- The `FLOAT` member of `type_t` in symbols.hpp: it has no behaviour. Symbol types are the built-in types of the syntax tree, and only their equality is used.
- Pointer identity: `shared_ptr` children are values. The symbol table's stack holds its scopes by value, as the program's `std::stack<Scope>` does. `lookup` returns the symbol, not its address.
- `toString`'s "unknown" branch: the enumeration is closed, so that branch cannot be reached.
- Symbols.SymbolTable.ValidateFunctionCall: the program passes the actual-parameter list where a list of type names is expected and would not compile as written, and refers to a function table it does not declare. The model takes the function table and the actual types as parameters. It renders the expected parameter types, as the message "expects parameters (...)" says.
- `FunctionEntry` is not default-constructible, so `functionMap[name] = ...` would not compile. The model records the entry directly.
- Visitor.SemanticVisitor.VisitAssign: `visit(Assign)` has a stray closing brace that leaves the last three statements outside the function, and it passes a pointer to `lookup`. The model follows the evident intent: the line, the identifier as a child, a lookup by name whose result is unused, and the expression as the last child.
- The semantic rules of the checked language (byte range, break/continue placement, a `void main()`, operator typing) are not implemented by this code. Only their message templates exist, and those are modelled (Output.MessageLine).
- The box-drawing strings are four opaque constants; their characters play no part in any proof.
- The declarations-only headers (visitor.hpp, output.hpp, symbols.hpp) add no behaviour.

## Findings

| source | as written | input that shows it | evidently intended | confidence | as-written member | corrected member |
|---|---|---|---|---|---|---|
| symbols.cpp:92-98 | `endScope` copies the popped scope's current counters into the running counters, and the stored initial counters (symbols.cpp:26-27) are never read | open a scope, add one parameter (offset -1), close it, open a second scope and add a parameter: it gets -2 | closing a scope restores the counters the scope was seeded with, so each function body numbers its parameters from -1 again | medium, not executed | Symbols.SecondFunctionParameterOffset | Symbols.NestedRoundTripRestoring |

The corrected end is `Symbols.EndRestoring`, implemented by `Symbols.SymbolTable.EndScopeRestoring` and kept in step by `Symbols.EndRestoringKeepsInStep`. `Symbols.ScopeRoundTripAsWritten` and, for blocks with inner blocks, `Symbols.NestedRoundTripAsWritten` show that after the as-written end the running counters stand advanced by what the closed scope declared directly. In between, an inner block's end leaves the running counters out of step with the scope on top (`Symbols.NestedCounterDrift`); with the corrected end they stay in step (`Symbols.ApplyRestoringKeepsInStep`). A scope's own declarations are numbered from that scope's counters, which an inner block leaves alone (`Symbols.ApplyOnlyMovesTop`). The visitor never declares between its begin and end calls, so both ends agree on every scope it closes (`Symbols.EndsAgreeOnEmptyScope`). Its behaviour is the same under either end.

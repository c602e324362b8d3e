# LYCCompiler assembly back end, in Dafny

This project models the back end of the LYC compiler. The back end covers:

- **The node arena.** `GestorNodos` keeps `Nodo` objects in a map keyed by an index. A global counter hands the indices out, starting at 1.
- **The symbol table.** `SymbolTableManager` is a map from normalised names to entries.
- **The alternative AST `Node`.** It keeps a list of children.
- **The assembly generator.** `AsmCodeGenerator` walks the node tree by index. It appends lines to a data buffer and a code buffer, and it draws temporaries, literals, int slots and labels from three counters.

The files are:

- `decimal.dfy`: decimal rendering and parsing of counters, used in every generated name.
- `nodo.dfy`: `Nodo`. Its constructors take the id counter as an object, and `toString` round-trips.
- `gestor_nodos.dfy`: the arena. It contains node creation, lookup, and the tree print as a pure traversal.
- `symbol_table.dfy`: the symbol table and its space-to-underscore normalisation.
- `node.dfy`: `Node`, its constructors, `addChild` and `toString`.
- `asm_text.dfy`: the lines the generator emits.
  - Operands are abstract: `@tmpN`, `@litN`, `@intSlotN`, user variables, and labels `<BASE><N>`.
  - `Render` gives the exact text, and the rendered names and labels are injective.
- `asm_spec.dfy`: one pure function per generator routine. Each maps the counters before the call to the lines it appends and the counters after.
- `asm_generator.dfy`: the generator as a class. The buffers and counters are fields, and the routines are recursive methods. Each method is proved to append exactly what its spec function says and to leave the counters where that function leaves them.
- `asm_data.dfy`, `asm_labels.dfy`, `asm_refs.dfy`: three families of properties of the spec functions, proved by induction over the tree.
  - data declarations: one per allocated name, in increasing order;
  - labels: placed once, and every jump lands on one;
  - operand references: only names already allocated.
- `asm_shapes.dfy`: the block layout of `if` and `while`.
- `asm_program.dfy`, `asm_props.dfy`:
  - the frame that `generateAssembler` wraps around the program (headers, user variables, compiler variables, footer);
  - the theorem that the generated data and code sections are consistent: every generated operand is declared, no name is declared twice, labels are unique and every jump has a target.

Things the source reads from outside are parameters:

- `esNumero` (a `Double.parseDouble` test) is a predicate `isNum` given to the generator.
- The `HashMap` iteration order of the symbol table is any order, returned as a ghost `order` that visits every key once.

## Model

| member | source | states |
|---|---|---|
| `Decimal.ParseNatToString` | src/main/java/lyc/compiler/files/AsmCodeGenerator.java:464-472 | the decimal suffix appended to generated names parses back to the counter value |
| `Decimal.NatToStringInjective` | src/main/java/lyc/compiler/files/AsmCodeGenerator.java:465-466 | two different counter values never give the same suffix |
| `Nodos.Nodo.Binary` | src/main/java/lyc/compiler/tree/Nodo.java:17-22 | the id is the counter after a pre-increment; tag, left and right are the arguments; the children's ids are smaller |
| `Nodos.Nodo.Unary` | src/main/java/lyc/compiler/tree/Nodo.java:29-34 | pre-incremented id, the left child as given, the right child null |
| `Nodos.Nodo.Leaf` | src/main/java/lyc/compiler/tree/Nodo.java:41-46 | pre-incremented id and no children |
| `Nodos.Nodo.ToString` | src/main/java/lyc/compiler/tree/Nodo.java:56-58 | the text `Nodo{indice=<i>, valor='<v>'}` parses back to exactly this node's id and tag |
| `Nodos.NodoTextRoundTrip` | src/main/java/lyc/compiler/tree/Nodo.java:56-58 | for every id and tag, parsing the rendered text gives back that id and that tag |
| `Nodos.IndexOf` | src/main/java/lyc/compiler/files/AsmCodeGenerator.java:493-496 | `getIndex` is 0 exactly for a null node, otherwise the node's own index |
| `Arena.GestorNodos.CrearNodoBinario` | src/main/java/lyc/compiler/tree/GestorNodos.java:12-18 | the index is fresh and above every stored key; every stored entry is kept; the new node's children are what the two indices held (null where absent) |
| `Arena.GestorNodos.CrearNodoUnario` | src/main/java/lyc/compiler/tree/GestorNodos.java:24-29 | as above, with a null right child |
| `Arena.GestorNodos.CrearNodoHoja` | src/main/java/lyc/compiler/tree/GestorNodos.java:48-52 | as above, with no children and the given tag |
| `Arena.GestorNodos.ObtenerNodo` | src/main/java/lyc/compiler/tree/GestorNodos.java:57-59 | null exactly for an index never stored (including 0 and anything above the counter), otherwise the node stored with that index |
| `Arena.Lookup` | src/main/java/lyc/compiler/tree/GestorNodos.java:57-59 | a stored node is well formed and carries its key as its index, which is at least 1 |
| `Arena.GestorNodos.ImprimirArbol` | src/main/java/lyc/compiler/tree/GestorNodos.java:65-68 | one printed line per node of the subtree, and the lines are the reverse of the in-order walk from depth 0 |
| `Arena.PrintTreeIsReversedInOrder` | src/main/java/lyc/compiler/tree/GestorNodos.java:70-82 | the right-node-left print is the reverse of the left-node-right walk |
| `Arena.PrintTreeSize` | src/main/java/lyc/compiler/tree/GestorNodos.java:70-82 | one line per node; the node itself comes right after its right subtree, at depth `nivel`; every other line is strictly deeper |
| `Arena.Indent` | src/main/java/lyc/compiler/tree/GestorNodos.java:77 | the indentation is spaces only, four per level |
| `SymbolTable.NormalizeProperties` | src/main/java/lyc/compiler/table/SymbolTableManager.java:16 | a normalised name has no space, normalising twice is normalising once, and a name is unchanged exactly when it has no space |
| `SymbolTable.SymbolTableManager.InsertInTable` | src/main/java/lyc/compiler/table/SymbolTableManager.java:15-17 | the entry is stored under its normalised name, overwriting, and no other key changes |
| `SymbolTable.SymbolTableManager.SetDataTypeInTable` | src/main/java/lyc/compiler/table/SymbolTableManager.java:19-22 | for a present key only that entry's type changes; an absent key (a null dereference in the source) reports not found and changes nothing |
| `SymbolTable.SymbolTableManager.RemoveFromTable` | src/main/java/lyc/compiler/table/SymbolTableManager.java:24-34 | the normalised key is removed if present; nothing else changes, and nothing at all when it is absent |
| `SymbolTable.SymbolTableManager.ExistsInTable` | src/main/java/lyc/compiler/table/SymbolTableManager.java:37-39 | true exactly when the raw name is a key, so never for a name with a space |
| `SymbolTable.InsertThenExists` | src/main/java/lyc/compiler/table/SymbolTableManager.java:15-17 | after inserting an entry whose name has no space, that name is a key |
| `Tree.Node.Leaf` | src/main/java/lyc/compiler/tree/Node.java:17-20 | empty child list, and the next number of the counter |
| `Tree.Node.Binary` | src/main/java/lyc/compiler/tree/Node.java:22-27 | children are left then right with nulls skipped, so their count is the number of non-null arguments |
| `Tree.Node.AddChild` | src/main/java/lyc/compiler/tree/Node.java:29-31 | the child, null included, is appended at the end and earlier children are kept; a valid node stays valid when the child is null or a valid tree not containing it |
| `Tree.Node.ToString` | src/main/java/lyc/compiler/tree/Node.java:34-36 | the value alone exactly for a node without children; otherwise the value, `[`, the children's texts in order separated by `, ` (`null` for a null child), and `]` |
| `Tree.JoinChildrenAppend` | src/main/java/lyc/compiler/tree/Node.java:34-36 | appending a child to a non-empty list appends `, ` and that child's text to the list's text, so the texts come in the children's order |
| `AsmText.RenderConcat` | src/main/java/lyc/compiler/files/AsmCodeGenerator.java:72-75 | rendering the two buffers one after the other is rendering their concatenation |
| `AsmText.LabelTextInjective` | src/main/java/lyc/compiler/files/AsmCodeGenerator.java:487-490 | different labels (base or number) never render to the same text |
| `AsmText.GeneratedNameTextInjective` | src/main/java/lyc/compiler/files/AsmCodeGenerator.java:464-484 | different generated names (`@tmp`, `@lit`, `@intSlot` with their numbers) never render to the same text |
| `AsmSpec.NewTemp` | src/main/java/lyc/compiler/files/AsmCodeGenerator.java:464-472 | the counter goes up by one before naming `@tmpN`; it is declared as `DD 0.0` unless already recorded, and is recorded |
| `AsmSpec.DefineLiteral` | src/main/java/lyc/compiler/files/AsmCodeGenerator.java:475-484 | as `newTemp`, on the shared counter, naming `@litN` declared as `DD <value>` |
| `AsmSpec.DefineIntSlot` | src/main/java/lyc/compiler/files/AsmCodeGenerator.java:29-34 | its own counter goes up by one, and `@intSlotN DD 0` is declared unconditionally |
| `AsmSpec.NewLabel` | src/main/java/lyc/compiler/files/AsmCodeGenerator.java:487-490 | the label counter goes up by one and names the label |
| `AsmSpec.ModAllocate` | src/main/java/lyc/compiler/files/AsmCodeGenerator.java:315-353 | the five temporaries `genModOp` takes are the next five numbers, and its int slot is the next slot |
| `AsmSpec.ModCodePlain` | src/main/java/lyc/compiler/files/AsmCodeGenerator.java:316-357 | the modulo block places no label, jumps nowhere and touches only its operands, its allocations and the slot |
| `AsmSpec.BinOpCodePlain` | src/main/java/lyc/compiler/files/AsmCodeGenerator.java:389-407 | the arithmetic block places no label and touches only its two operands and its result |
| `AsmSpec.LoadCodePlain` | src/main/java/lyc/compiler/files/AsmCodeGenerator.java:365-380 | the leaf block places no label; a variable leaf touches only the variable and its temporary |
| `AsmData.ExprData` | src/main/java/lyc/compiler/files/AsmCodeGenerator.java:260-301 | an expression's data lines are declarations of the `@tmp`/`@lit`/`@intSlot` numbers it drew, in increasing order, every slot it drew is declared, and `declaredTemps` gains exactly the names declared |
| `AsmData.StmtData` | src/main/java/lyc/compiler/files/AsmCodeGenerator.java:141-254 | the same for every statement |
| `AsmLabels.ExprLabels` | src/main/java/lyc/compiler/files/AsmCodeGenerator.java:412-461 | the labels an expression places are numbered within the labels it drew, each is placed once, and every jump lands on one of them |
| `AsmLabels.StmtLabels` | src/main/java/lyc/compiler/files/AsmCodeGenerator.java:141-240 | the same for every statement, including nested ifs and whiles |
| `AsmRefs.ExprRefs` | src/main/java/lyc/compiler/files/AsmCodeGenerator.java:260-380 | an expression's code touches only user variables and names it allocated and recorded itself, and it returns one of its own `@tmp`s |
| `AsmRefs.StmtRefs` | src/main/java/lyc/compiler/files/AsmCodeGenerator.java:141-254 | a statement's code touches only user variables and names it allocated |
| `AsmShapes.IfShape` | src/main/java/lyc/compiler/files/AsmCodeGenerator.java:175-219 | without `cuerpo`: condition, FLD/FTST/FSTSW/SAHF, `JE ELSE`, body, then `ELSE:` directly followed by `END_IF:`; END_IF's number is ELSE's plus one, above the condition's labels, and neither the condition nor the body places them |
| `AsmShapes.IfElseShape` | src/main/java/lyc/compiler/files/AsmCodeGenerator.java:175-219 | with `cuerpo`: condition, the test, the true part, `jmp END_IF`, `ELSE:`, the false part, `END_IF:`; consecutive label numbers above the condition's, placed by neither the condition nor either part |
| `AsmShapes.WhileShape` | src/main/java/lyc/compiler/files/AsmCodeGenerator.java:222-240 | `WHILE:` before the condition, the condition once, `JE ENDWHILE`, the body, `jmp WHILE`, `ENDWHILE:` last; the labels are the next two numbers and neither the condition nor the body places them |
| `AsmProps.OperandOrder` | src/main/java/lyc/compiler/files/AsmCodeGenerator.java:384-385 | every temporary drawn for the left operand is numbered below every one drawn for the right operand |
| `AsmProps.BinaryOpOrder` | src/main/java/lyc/compiler/files/AsmCodeGenerator.java:383-409 | an arithmetic node's result temporary is numbered above both operands' |
| `AsmProps.ComparisonOrder` | src/main/java/lyc/compiler/files/AsmCodeGenerator.java:412-415 | a comparison's result temporary is numbered above both operands' |
| `AsmProps.ModAllocation` | src/main/java/lyc/compiler/files/AsmCodeGenerator.java:315-359 | modulo draws resultDiv, tempFloor, floorFloat, mulTemp and resultMod in that order after both operands, plus one int slot, and returns resultMod |
| `AsmProps.ModFloorUnused` | src/main/java/lyc/compiler/files/AsmCodeGenerator.java:326-357 | tempFloor is never loaded or stored by the modulo code |
| `AsmProps.CmpStoresZero` | src/main/java/lyc/compiler/files/AsmCodeGenerator.java:428-459 | whatever jump the operator selects, the last store to the comparison's result is `FLDZ` then `FSTP [result]`, so the result is always 0.0 |
| `AsmProps.DataUnique` | src/main/java/lyc/compiler/files/AsmCodeGenerator.java:464-484 | no name is declared twice in the data a routine appends |
| `AsmProps.ProgramAssembles` | src/main/java/lyc/compiler/files/AsmCodeGenerator.java:141-172 | a program compiled from fresh counters declares every generated operand it touches, declares nothing twice, places every label once and has a target for every jump |
| `AsmProps.GeneratedFileAssembles` | src/main/java/lyc/compiler/files/AsmCodeGenerator.java:46-75 | the same holds of the whole file, headers, user variables and compiler variables included |
| `AsmProgram.UserDeclsOnePerEntry` | src/main/java/lyc/compiler/files/AsmCodeGenerator.java:96-119 | one declaration per table entry, with the directive its type selects; no other names; no name twice |
| `AsmProgram.Coerced` | src/main/java/lyc/compiler/files/AsmCodeGenerator.java:100-101 | an entry without a type becomes FLOAT and nothing else about it changes |
| `AsmProgram.CoerceAll` | src/main/java/lyc/compiler/files/AsmCodeGenerator.java:97-101 | the table keeps its keys, and each entry is coerced |
| `AsmGenerator.DeclareUserVars` | src/main/java/lyc/compiler/files/AsmCodeGenerator.java:97-116 | the loop visits every key once, in some order; it emits the declarations in that order and types untyped entries FLOAT |
| `AsmGenerator.AsmCodeGenerator.GenUserVars` | src/main/java/lyc/compiler/files/AsmCodeGenerator.java:96-119 | appends those declarations and a blank line, stores the coerced table, and leaves the code buffer and the counters alone |
| `AsmGenerator.AsmCodeGenerator.NewTemp` | src/main/java/lyc/compiler/files/AsmCodeGenerator.java:464-472 | the fields move as `AsmSpec.NewTemp` says |
| `AsmGenerator.AsmCodeGenerator.DefineLiteral` | src/main/java/lyc/compiler/files/AsmCodeGenerator.java:475-484 | the fields move as `AsmSpec.DefineLiteral` says |
| `AsmGenerator.AsmCodeGenerator.DefineIntSlot` | src/main/java/lyc/compiler/files/AsmCodeGenerator.java:29-34 | the fields move as `AsmSpec.DefineIntSlot` says |
| `AsmGenerator.AsmCodeGenerator.NewLabel` | src/main/java/lyc/compiler/files/AsmCodeGenerator.java:487-490 | the label counter moves as `AsmSpec.NewLabel` says, and the buffers are untouched |
| `AsmGenerator.AsmCodeGenerator.GenExpr` | src/main/java/lyc/compiler/files/AsmCodeGenerator.java:260-301 | appends exactly `AsmSpec.Expr`'s lines to both buffers, leaves the counters where it leaves them, and returns its temporary |
| `AsmGenerator.AsmCodeGenerator.GenZero` | src/main/java/lyc/compiler/files/AsmCodeGenerator.java:261-274 | a fresh temporary stored with 0.0 after the comment |
| `AsmGenerator.AsmCodeGenerator.GenLiteralOrVar` | src/main/java/lyc/compiler/files/AsmCodeGenerator.java:365-380 | the result temporary is drawn before the literal, and the leaf is loaded into it |
| `AsmGenerator.AsmCodeGenerator.GenBinaryFloatOp` | src/main/java/lyc/compiler/files/AsmCodeGenerator.java:383-409 | both operands, then the result temporary and the operator's instruction |
| `AsmGenerator.AsmCodeGenerator.GenModOp` | src/main/java/lyc/compiler/files/AsmCodeGenerator.java:307-360 | the interleaved allocations and code pieces append exactly `AsmSpec.ModOp` |
| `AsmGenerator.AsmCodeGenerator.GenComparison` | src/main/java/lyc/compiler/files/AsmCodeGenerator.java:412-461 | appends exactly `AsmSpec.Comparison`, including the operator's jump |
| `AsmGenerator.AsmCodeGenerator.GenStatement` | src/main/java/lyc/compiler/files/AsmCodeGenerator.java:141-172 | appends exactly `AsmSpec.Stmt` |
| `AsmGenerator.AsmCodeGenerator.GenIf` | src/main/java/lyc/compiler/files/AsmCodeGenerator.java:175-219 | appends exactly `AsmSpec.IfStmt` |
| `AsmGenerator.AsmCodeGenerator.GenWhile` | src/main/java/lyc/compiler/files/AsmCodeGenerator.java:222-240 | appends exactly `AsmSpec.WhileStmt` |
| `AsmGenerator.AsmCodeGenerator.GenAssign` | src/main/java/lyc/compiler/files/AsmCodeGenerator.java:243-254 | banner only when the target node is missing; otherwise the expression, then its temporary copied into the variable |
| `AsmGenerator.AsmCodeGenerator.GenerateSections` | src/main/java/lyc/compiler/files/AsmCodeGenerator.java:46-70 | resets both buffers, `declaredTemps` and the temp and label counters but not the slot counter; the data buffer becomes header, user declarations, compiler variables and the program's data; the code buffer becomes header, program and footer |
| `AsmGenerator.AsmCodeGenerator.GenerateAssembler` | src/main/java/lyc/compiler/files/AsmCodeGenerator.java:46-75 | the output text is the data buffer followed by the code buffer, and the two sections are consistent as `AsmProps.Assembles` defines; a symbol table keyed by normalised names stays so |

## Left out

- Writing the `.asm` file, the console messages of `generateAssembler` and `removeFromTable`, and the `generate(FileWriter)` stubs. These are I/O; the model returns the text instead.
- What the emitted FPU instructions compute (division, rounding by `FISTP`, flags). This is floating point at run time, not generator behaviour.
- `esNumero`'s `Double.parseDouble`. It is a library call, so it is the parameter `isNum`.
- The `HashMap` iteration order of `genUserVars`. It is unspecified, so the model allows any order that visits each key once.
- A null `SymbolEntry` value in `genUserVars`. The source would throw there. Table values are never null in the model.
- `SymbolEntry.java` is not part of this model. An entry is a record of name, optional type, value and length.
- `IntermediateCodeGenerator`, `SymbolTableGenerator`, `ASTManager` and `NodeIndex`: reporting I/O and plain holders.
- 32-bit `int` overflow of the counters. Counters are unbounded naturals, because a wrap needs more than two billion allocations.
- `declaredTemps` is a set of names, since the source only ever stores `true` in its map.
- User variables referenced by the code are not proved declared. The generator does not check them; only its own names are proved declared.
- `AsmGenerator.DeclareUserVars` computes the coerced table and the declarations, and `GenUserVars` stores both afterwards. The source updates each entry in place during the loop. Nothing else runs between these points, so no other code can observe the difference.
- `SymbolTable.SymbolTableManager.SetDataTypeInTable`: the source throws a `NullPointerException` on an absent key. The model returns `found == false` with the table unchanged instead, so the exception's propagation to the caller is not modelled.
- `Tree.Node.ToString` requires the children to form a finite tree. `addChild` can build a cycle (a node added below itself), on which the source recurses until `StackOverflowError`; that case is not modelled.
- `Node.getChildren`, `getValue` and `getNumber`, and `Nodo`'s getters, are plain field reads of the class fields.
- A comparison's result temporary is always 0.0 as written (`AsmProps.CmpStoresZero`). The model keeps that behaviour; it does not guess the intended one.

/** What the assembly generator appends, as pure functions. Each generator
    routine becomes a function from the counters before the call (`Gen`) to
    the lines it appends to the data and code buffers and the counters after
    the call (`Out`). The generator class is proved to append exactly these
    lines; the properties of the lines are proved in the modules beside this
    one. */
module AsmSpec {
  import opened Nodos
  import opened Arena
  import opened AsmText

  /** `tempCount`, `labelCount`, `intSlotCount` and the names `declaredTemps` holds. */
  datatype Gen = Gen(temps: nat, labels: nat, slots: nat, declared: set<string>)

  /** What one routine appends to `dataSection` and `codeSection`, and the
      counters it leaves behind. */
  datatype Out = Out(gen: Gen, data: seq<Line>, code: seq<Line>)

  /** The output of a routine that also hands back a storage name. */
  datatype Emitted = Emitted(out: Out, temp: Name)

  /** The counters after `newLabel`, and the label it hands back. */
  datatype Labelled = Labelled(gen: Gen, name: Label)

  /** One routine's output followed by the next one's. */
  function Then(a: Out, b: Out): Out {
    Out(b.gen, a.data + b.data, a.code + b.code)
  }

  /** No counter went down and no recorded name was dropped. */
  ghost predicate Grows(g: Gen, h: Gen) {
    g.temps <= h.temps && g.labels <= h.labels && g.slots <= h.slots && g.declared <= h.declared
  }

  /** Code lines appended with no allocation, the counters being `g` after them. */
  function Lines(g: Gen, code: seq<Line>): Out {
    Out(g, [], code)
  }

  // ---------------------------------------------------------------------
  // Allocation: newTemp, defineLiteral, defineIntSlot, newLabel
  // ---------------------------------------------------------------------

  /** `newTemp`: bumps `tempCount`, names `@tmp<N>`, and declares it unless
      `declaredTemps` already holds that name. */
  function NewTemp(g: Gen): (e: Emitted)
    ensures e.out.gen.temps == g.temps + 1 && e.temp == Tmp(e.out.gen.temps)
    ensures e.out.gen.labels == g.labels && e.out.gen.slots == g.slots && e.out.code == []
    ensures e.out.gen.declared == g.declared + {NameText(e.temp)}
    ensures e.out.data == if NameText(e.temp) in g.declared then [] else [Decl(e.temp, "DD 0.0")]
  {
    var name := Tmp(g.temps + 1);
    var text := NameText(name);
    if text in g.declared then Emitted(Out(g.(temps := g.temps + 1), [], []), name)
    else Emitted(Out(g.(temps := g.temps + 1, declared := g.declared + {text}), [Decl(name, "DD 0.0")], []), name)
  }

  /** `defineLiteral`: like `newTemp` on the same counter, named `@lit<N>`
      and initialised with the literal's own text. */
  function DefineLiteral(g: Gen, val: string): (e: Emitted)
    ensures e.out.gen.temps == g.temps + 1 && e.temp == Lit(e.out.gen.temps)
    ensures e.out.gen.labels == g.labels && e.out.gen.slots == g.slots && e.out.code == []
    ensures e.out.gen.declared == g.declared + {NameText(e.temp)}
    ensures e.out.data == if NameText(e.temp) in g.declared then [] else [Decl(e.temp, "DD " + val)]
  {
    var name := Lit(g.temps + 1);
    var text := NameText(name);
    if text in g.declared then Emitted(Out(g.(temps := g.temps + 1), [], []), name)
    else Emitted(Out(g.(temps := g.temps + 1, declared := g.declared + {text}), [Decl(name, "DD " + val)], []), name)
  }

  /** `defineIntSlot`: bumps `intSlotCount` and always declares `@intSlot<N> DD 0`. */
  function DefineIntSlot(g: Gen): (e: Emitted)
    ensures e.out.gen == g.(slots := g.slots + 1) && e.temp == IntSlot(e.out.gen.slots)
    ensures e.out.data == [Decl(e.temp, "DD 0")] && e.out.code == []
  {
    var name := IntSlot(g.slots + 1);
    Emitted(Out(g.(slots := g.slots + 1), [Decl(name, "DD 0")], []), name)
  }

  /** `newLabel`: bumps `labelCount` and names `<base><N>`. */
  function NewLabel(g: Gen, base: LabelBase): (r: Labelled)
    ensures r.gen == g.(labels := g.labels + 1) && r.name == Label(base, r.gen.labels)
  {
    Labelled(g.(labels := g.labels + 1), Label(base, g.labels + 1))
  }

  /** A rank for node indices; a stored node's children rank below it. */
  function Rank(i: int): nat {
    if i < 0 then 0 else i
  }

  function MaxRank(i: int, j: int): nat {
    if Rank(i) < Rank(j) then Rank(j) else Rank(i)
  }

  // ---------------------------------------------------------------------
  // Expressions: genExpr and the routines it dispatches to
  // ---------------------------------------------------------------------

  /** `genExpr` on index 0 or on an index with no node: a zeroed temporary. */
  function ExprZero(g: Gen, comment: string): Emitted {
    var t := NewTemp(g);
    Emitted(t.out.(code := [Text(comment), Text("\tFLDZ"), Mem("FSTP ", t.temp)]), t.temp)
  }

  function LoadCode(comment: string, src: Name, tmp: Name): seq<Line> {
    [Blank, Text(comment), Mem("FLD ", src), Mem("FSTP ", tmp)]
  }

  /** `genLiteralOrVar`: a fresh temporary loaded from a new `@lit` when the
      text is numeric, from the variable of that name otherwise. */
  function LiteralOrVar(isNum: string -> bool, g: Gen, val: string): Emitted {
    var t := NewTemp(g);
    if isNum(val) then
      var lit := DefineLiteral(t.out.gen, val);
      Emitted(Then(t.out, lit.out).(code := LoadCode("; cargar literal " + val, lit.temp, t.temp)), t.temp)
    else
      Emitted(t.out.(code := LoadCode("; cargar variable " + val, Var(val), t.temp)), t.temp)
  }

  /** The arithmetic instruction of `genBinaryFloatOp`'s switch (none for
      another operator). */
  function BinOpLines(op: string): seq<Line> {
    if op == "+" then [Text("\tFADD ST0, ST1")]
    else if op == "-" then [Text("\tFSUB ST0, ST1")]
    else if op == "*" then [Text("\tFMUL ST0, ST1")]
    else if op == "/" then [Text("\tFDIV ST0, ST1")]
    else []
  }

  /** The conditional jump of `genComparison`'s switch (none for another
      operator); it goes to the end label when the relation fails. */
  function CmpJump(op: string, end: Label): seq<Line> {
    if op == "==" then [Jump("JNE ", end)]
    else if op == "!=" then [Jump("JE  ", end)]
    else if op == "<" then [Jump("JGE ", end)]
    else if op == ">" then [Jump("JLE ", end)]
    else if op == "<=" then [Jump("JG  ", end)]
    else if op == ">=" then [Jump("JL  ", end)]
    else []
  }

  predicate IsArith(op: string) {
    op == "+" || op == "-" || op == "*" || op == "/"
  }

  predicate IsRelational(op: string) {
    op == "==" || op == "!=" || op == "<" || op == ">" || op == "<=" || op == ">="
  }

  /** `genExpr`: code for the expression rooted at `index`, leaving its value
      in the returned temporary. */
  function Expr(nodos: map<int, Nodo>, isNum: string -> bool, g: Gen, index: int): Emitted
    requires WellFormed(nodos)
    decreases Rank(index), 0
  {
    if index == 0 then ExprZero(g, "; genExpr(0)->0.0")
    else
      var n := Lookup(nodos, index);
      if n == null then ExprZero(g, "; nodo null->0.0")
      else
        var l, r := IndexOf(n.izquierdo), IndexOf(n.derecho);
        if IsArith(n.valor) then BinaryFloatOp(nodos, isNum, g, n.valor, l, r)
        else if n.valor == "%" then ModOp(nodos, isNum, g, l, r)
        else if IsRelational(n.valor) then Comparison(nodos, isNum, g, n.valor, l, r)
        else LiteralOrVar(isNum, g, n.valor)
  }

  /** Which routine `genExpr` hands each kind of node to. */
  lemma ExprDispatch(nodos: map<int, Nodo>, isNum: string -> bool, g: Gen, index: int)
    requires WellFormed(nodos)
    ensures index == 0 ==> Expr(nodos, isNum, g, index) == ExprZero(g, "; genExpr(0)->0.0")
    ensures index != 0 && Lookup(nodos, index) == null ==> Expr(nodos, isNum, g, index) == ExprZero(g, "; nodo null->0.0")
    ensures index != 0 && Lookup(nodos, index) != null ==>
      var n := Lookup(nodos, index);
      var l, r := IndexOf(n.izquierdo), IndexOf(n.derecho);
      && (IsArith(n.valor) ==> Expr(nodos, isNum, g, index) == BinaryFloatOp(nodos, isNum, g, n.valor, l, r))
      && (!IsArith(n.valor) && n.valor == "%" ==> Expr(nodos, isNum, g, index) == ModOp(nodos, isNum, g, l, r))
      && (!IsArith(n.valor) && n.valor != "%" && IsRelational(n.valor) ==>
            Expr(nodos, isNum, g, index) == Comparison(nodos, isNum, g, n.valor, l, r))
      && (!IsArith(n.valor) && n.valor != "%" && !IsRelational(n.valor) ==>
            Expr(nodos, isNum, g, index) == LiteralOrVar(isNum, g, n.valor))
  {
  }

  /** Both operands of a binary node, the left one first. */
  function Operands(nodos: map<int, Nodo>, isNum: string -> bool, g: Gen, leftIdx: int, rightIdx: int): (Emitted, Emitted)
    requires WellFormed(nodos)
    decreases MaxRank(leftIdx, rightIdx), 1
  {
    var left := Expr(nodos, isNum, g, leftIdx);
    (left, Expr(nodos, isNum, left.out.gen, rightIdx))
  }

  /** `genBinaryFloatOp`: left operand, right operand, then a fresh result. */
  function BinaryFloatOp(nodos: map<int, Nodo>, isNum: string -> bool, g: Gen, op: string, leftIdx: int, rightIdx: int): Emitted
    requires WellFormed(nodos)
    decreases MaxRank(leftIdx, rightIdx), 2
  {
    var (left, right) := Operands(nodos, isNum, g, leftIdx, rightIdx);
    BinOpTail(op, left, right)
  }

  /** What `genBinaryFloatOp` does once both operands are computed. */
  function BinOpTail(op: string, left: Emitted, right: Emitted): Emitted {
    var t := NewTemp(right.out.gen);
    Emitted(Then(Then(left.out, right.out), t.out.(code := BinOpCode(op, left.temp, right.temp, t.temp))), t.temp)
  }

  function BinOpCode(op: string, left: Name, right: Name, res: Name): seq<Line> {
    [Blank, Text("; --- BinOp " + op + " ---"), Mem("FLD ", right), Mem("FLD ", left)]
      + BinOpLines(op) + [Mem("FSTP ", res), Blank]
  }

  /** The six allocations of `genModOp`, in order: resultDiv, tempFloor, the
      int slot, floorFloat, mulTemp, resultMod. */
  datatype ModAlloc = ModAlloc(out: Out, div: Name, floor: Name, slot: Name, floorFloat: Name, mul: Name, res: Name)

  function ModAllocate(g: Gen): (m: ModAlloc)
    ensures m.div == Tmp(g.temps + 1) && m.floor == Tmp(g.temps + 2) && m.slot == IntSlot(g.slots + 1)
    ensures m.floorFloat == Tmp(g.temps + 3) && m.mul == Tmp(g.temps + 4) && m.res == Tmp(g.temps + 5)
    ensures m.out.gen.temps == g.temps + 5 && m.out.gen.slots == g.slots + 1 && m.out.gen.labels == g.labels
    ensures m.out.code == []
  {
    var div := NewTemp(g);
    var floor := NewTemp(div.out.gen);
    var slot := DefineIntSlot(floor.out.gen);
    var floorFloat := NewTemp(slot.out.gen);
    var mul := NewTemp(floorFloat.out.gen);
    var res := NewTemp(mul.out.gen);
    ModAlloc(Then(div.out, Then(floor.out, Then(slot.out, Then(floorFloat.out, Then(mul.out, res.out))))),
      div.temp, floor.temp, slot.temp, floorFloat.temp, mul.temp, res.temp)
  }

  /** What `genModOp` appends after its operands, in one piece (the
      allocations interleaved with it add no code). */
  function ModCode(left: Name, right: Name, m: ModAlloc): seq<Line> {
    [ Text("\t;  Div = left / right"), Mem("FLD ", right), Mem("FLD ", left), Text("\tFDIV ST0, ST1"),
      Mem("FSTP ", m.div), Text("\tFSTP ST0"),
      Text("\t; Convert float->int => floor"), Mem("FLD ", m.div),
      Mem("FISTP ", m.slot),
      Mem("FLD  ", m.slot), Mem("FSTP ", m.floorFloat),
      Blank, Text("; mulTemp = floorDiv * right"), Mem("FLD ", right), Mem("FLD ", m.floorFloat),
      Text("\tFMUL ST0, ST1"), Mem("FSTP ", m.mul), Text("\tFSTP ST0"),
      Blank, Text("; mod = left - mulTemp"), Mem("FLD ", left), Mem("FSUB ", m.mul), Mem("FSTP ", m.res) ]
  }

  const ModBanner := [Blank, Text("; --- Modulo (left % right) ---")]

  /** `genModOp`: banner, left, right, then resultDiv, tempFloor, an int
      slot, floorFloat, mulTemp and resultMod, in that order. */
  function ModOp(nodos: map<int, Nodo>, isNum: string -> bool, g: Gen, leftIdx: int, rightIdx: int): Emitted
    requires WellFormed(nodos)
    decreases MaxRank(leftIdx, rightIdx), 2
  {
    var (left, right) := Operands(nodos, isNum, g, leftIdx, rightIdx);
    ModTail(g, left, right)
  }

  /** `ModOp` in terms of its two operands and its six allocations. */
  lemma ModOpUnfold(nodos: map<int, Nodo>, isNum: string -> bool, g: Gen, leftIdx: int, rightIdx: int)
    requires WellFormed(nodos)
    ensures var left := Expr(nodos, isNum, g, leftIdx);
      var right := Expr(nodos, isNum, left.out.gen, rightIdx);
      var m := ModAllocate(right.out.gen);
      var e := ModOp(nodos, isNum, g, leftIdx, rightIdx);
      && e.temp == m.res && e.out.gen == m.out.gen
      && e.out.data == ([] + (left.out.data + right.out.data)) + m.out.data
      && e.out.code == (ModBanner + (left.out.code + right.out.code)) + ModCode(left.temp, right.temp, m)
  {
  }

  function ModTail(g: Gen, left: Emitted, right: Emitted): Emitted {
    var m := ModAllocate(right.out.gen);
    Emitted(Then(Then(Lines(g, ModBanner), Then(left.out, right.out)), m.out.(code := ModCode(left.temp, right.temp, m))), m.res)
  }

  function CmpCode(op: string, left: Name, right: Name, res: Name, isTrue: Label, end: Label): seq<Line> {
    CmpHead(op, left, right) + CmpJump(op, end) + CmpEndCode(isTrue, end, res)
  }

  /** The subtraction of the operands and the flag transfer. */
  function CmpHead(op: string, left: Name, right: Name): seq<Line> {
    [Blank, Text("; --- Comparacion " + op + " ---"), Mem("FLD ", left), Mem("FSUB ", right),
     Text("\tFTST"), Text("\tFSTSW AX"), Text("\tSAHF")]
  }

  /** CMPTRUE, the jump to CMPEND, CMPEND and the store of zero. */
  function CmpEndCode(isTrue: Label, end: Label, res: Name): seq<Line> {
    [Mark(isTrue), Text("\tFLD1"), Jump("JMP ", end), Mark(end),
     Text("\tFSTP ST0"), Text("\tFLDZ"), Mem("FSTP ", res), Blank]
  }

  /** `genComparison`: left, right, a fresh result, then CMPTRUE/CMPEND. */
  function Comparison(nodos: map<int, Nodo>, isNum: string -> bool, g: Gen, op: string, leftIdx: int, rightIdx: int): Emitted
    requires WellFormed(nodos)
    decreases MaxRank(leftIdx, rightIdx), 2
  {
    var (left, right) := Operands(nodos, isNum, g, leftIdx, rightIdx);
    CmpTail(op, left, right)
  }

  /** `Comparison` in terms of its two operands, its result temporary and
      its two labels. */
  lemma ComparisonUnfold(nodos: map<int, Nodo>, isNum: string -> bool, g: Gen, op: string, leftIdx: int, rightIdx: int)
    requires WellFormed(nodos)
    ensures var left := Expr(nodos, isNum, g, leftIdx);
      var right := Expr(nodos, isNum, left.out.gen, rightIdx);
      var t := NewTemp(right.out.gen);
      var isTrue := NewLabel(t.out.gen, CmpTrue);
      var end := NewLabel(isTrue.gen, CmpEnd);
      var e := Comparison(nodos, isNum, g, op, leftIdx, rightIdx);
      && e.temp == t.temp && e.out.gen == end.gen
      && e.out.data == (left.out.data + right.out.data) + t.out.data
      && e.out.code == (left.out.code + right.out.code) + CmpCode(op, left.temp, right.temp, t.temp, isTrue.name, end.name)
  {
  }

  function CmpTail(op: string, left: Emitted, right: Emitted): Emitted {
    var t := NewTemp(right.out.gen);
    var isTrue := NewLabel(t.out.gen, CmpTrue);
    var end := NewLabel(isTrue.gen, CmpEnd);
    Emitted(Then(Then(left.out, right.out), Out(end.gen, t.out.data, CmpCode(op, left.temp, right.temp, t.temp, isTrue.name, end.name))), t.temp)
  }

  // ---------------------------------------------------------------------
  // Statements: genStatement, genIf, genWhile, genAssign
  // ---------------------------------------------------------------------

  /** The test of a condition's value against zero that `genIf` and
      `genWhile` emit, followed by the jump taken when it is zero. */
  function TestZero(cond: Name, target: Label): seq<Line> {
    [Mem("FLD ", cond), Text("\tFTST"), Text("\tFSTSW AX"), Text("\tSAHF"), Jump("JE ", target)]
  }

  const IfBanner := [Blank, Text("; --- IF statement con else---")]
  const WhileBanner := [Blank, Text("; --- WHILE statement ---")]
  const AssignBanner := [Blank, Text("; --- Asignación ---")]

  /** `genStatement`: nothing for index 0 or an index with no node. */
  function Stmt(nodos: map<int, Nodo>, isNum: string -> bool, g: Gen, index: int): Out
    requires WellFormed(nodos)
    decreases Rank(index), 1
  {
    if index == 0 then Lines(g, [])
    else
      var n := Lookup(nodos, index);
      if n == null then Lines(g, [])
      else
        var l, r := IndexOf(n.izquierdo), IndexOf(n.derecho);
        if n.valor == ";" then BlockStmt(nodos, isNum, g, l, r)
        else if n.valor == "if" then IfStmt(nodos, isNum, g, l, r)
        else if n.valor == "while" then WhileStmt(nodos, isNum, g, l, r)
        else if n.valor == "=" then AssignStmt(nodos, isNum, g, l, r)
        else Expr(nodos, isNum, g, index).out
  }

  /** Which routine `genStatement` hands each kind of node to. */
  lemma StmtDispatch(nodos: map<int, Nodo>, isNum: string -> bool, g: Gen, index: int)
    requires WellFormed(nodos)
    ensures index == 0 || Lookup(nodos, index) == null ==> Stmt(nodos, isNum, g, index) == Lines(g, [])
    ensures index != 0 && Lookup(nodos, index) != null ==>
      var n := Lookup(nodos, index);
      var l, r := IndexOf(n.izquierdo), IndexOf(n.derecho);
      && (n.valor == ";" ==> Stmt(nodos, isNum, g, index) == BlockStmt(nodos, isNum, g, l, r))
      && (n.valor == "if" ==> Stmt(nodos, isNum, g, index) == IfStmt(nodos, isNum, g, l, r))
      && (n.valor == "while" ==> Stmt(nodos, isNum, g, index) == WhileStmt(nodos, isNum, g, l, r))
      && (n.valor == "=" ==> Stmt(nodos, isNum, g, index) == AssignStmt(nodos, isNum, g, l, r))
      && (n.valor != ";" && n.valor != "if" && n.valor != "while" && n.valor != "=" ==>
            Stmt(nodos, isNum, g, index) == Expr(nodos, isNum, g, index).out)
  {
  }

  /** A `;` node: the left statement, then the right one. */
  function BlockStmt(nodos: map<int, Nodo>, isNum: string -> bool, g: Gen, leftIdx: int, rightIdx: int): Out
    requires WellFormed(nodos)
    decreases MaxRank(leftIdx, rightIdx), 2
  {
    var left := Stmt(nodos, isNum, g, leftIdx);
    Then(left, Stmt(nodos, isNum, left.gen, rightIdx))
  }

  /** Two labels allocated one after the other, and the counters after. */
  datatype LabelPair = LabelPair(gen: Gen, first: Label, second: Label)

  function TwoLabels(g: Gen, first: LabelBase, second: LabelBase): LabelPair {
    var a := NewLabel(g, first);
    var b := NewLabel(a.gen, second);
    LabelPair(b.gen, a.name, b.name)
  }

  /** `genIf`'s two `newLabel` calls, made after the condition. */
  function IfLabels(cond: Emitted): LabelPair {
    TwoLabels(cond.out.gen, Else, EndIf)
  }

  /** `genIf`: banner, condition, ELSE/END_IF labels, the test, then either
      the two parts of a `cuerpo` node or the body as one statement. */
  function IfStmt(nodos: map<int, Nodo>, isNum: string -> bool, g: Gen, condIdx: int, bodyIdx: int): Out
    requires WellFormed(nodos)
    decreases MaxRank(condIdx, bodyIdx), 2
  {
    var cond := Expr(nodos, isNum, g, condIdx);
    var labels := IfLabels(cond).gen;
    var bodyNode := Lookup(nodos, bodyIdx);
    if bodyNode != null && bodyNode.valor == "cuerpo" then
      var tru := Stmt(nodos, isNum, labels, IndexOf(bodyNode.izquierdo));
      var fls := Stmt(nodos, isNum, tru.gen, IndexOf(bodyNode.derecho));
      IfElseTail(g, cond, tru, fls)
    else
      IfTail(g, cond, Stmt(nodos, isNum, labels, bodyIdx))
  }

  /** The two forms of `genIf`, by what is stored at the body index. */
  lemma IfUnfold(nodos: map<int, Nodo>, isNum: string -> bool, g: Gen, condIdx: int, bodyIdx: int)
    requires WellFormed(nodos)
    ensures var cond := Expr(nodos, isNum, g, condIdx);
      var ls := IfLabels(cond);
      var bodyNode := Lookup(nodos, bodyIdx);
      && (bodyNode != null && bodyNode.valor == "cuerpo" ==>
            var tru := Stmt(nodos, isNum, ls.gen, IndexOf(bodyNode.izquierdo));
            IfStmt(nodos, isNum, g, condIdx, bodyIdx)
              == IfElseTail(g, cond, tru, Stmt(nodos, isNum, tru.gen, IndexOf(bodyNode.derecho))))
      && (!(bodyNode != null && bodyNode.valor == "cuerpo") ==>
            IfStmt(nodos, isNum, g, condIdx, bodyIdx) == IfTail(g, cond, Stmt(nodos, isNum, ls.gen, bodyIdx)))
  {
  }

  /** Banner, condition and test: what both forms of `genIf` start with. */
  function IfHead(g: Gen, cond: Emitted): Out {
    var ls := IfLabels(cond);
    Then(Then(Lines(g, IfBanner), cond.out), Lines(ls.gen, TestZero(cond.temp, ls.first)))
  }

  /** `genIf` without `cuerpo`: the body, then `ELSE:` and `END_IF:`. */
  function IfTail(g: Gen, cond: Emitted, body: Out): Out {
    var ls := IfLabels(cond);
    Then(IfHead(g, cond), Then(body, Lines(body.gen, [Mark(ls.first), Mark(ls.second)])))
  }

  /** `genIf` with `cuerpo`: true part, `jmp END_IF`, `ELSE:`, false part,
      `END_IF:`. */
  function IfElseTail(g: Gen, cond: Emitted, tru: Out, fls: Out): Out {
    var ls := IfLabels(cond);
    Then(IfHead(g, cond),
      Then(Then(tru, Lines(tru.gen, [Jump("jmp ", ls.second), Mark(ls.first)])),
        Then(fls, Lines(fls.gen, [Mark(ls.second)]))))
  }

  /** `genWhile`: WHILE/ENDWHILE labels first, then the condition once, the
      test, the body and the jump back. */
  function WhileStmt(nodos: map<int, Nodo>, isNum: string -> bool, g: Gen, condIdx: int, bodyIdx: int): Out
    requires WellFormed(nodos)
    decreases MaxRank(condIdx, bodyIdx), 2
  {
    var cond := Expr(nodos, isNum, WhileLabels(g).gen, condIdx);
    WhileTail(g, cond, Stmt(nodos, isNum, cond.out.gen, bodyIdx))
  }

  /** `genWhile`'s two `newLabel` calls, made before anything else. */
  function WhileLabels(g: Gen): LabelPair {
    TwoLabels(g, While, EndWhile)
  }

  function WhileTail(g: Gen, cond: Emitted, body: Out): Out {
    var ls := WhileLabels(g);
    Then(Then(Lines(ls.gen, WhileBanner + [Mark(ls.first)]), cond.out),
      Then(Lines(cond.out.gen, TestZero(cond.temp, ls.second)),
        Then(body, Lines(body.gen, [Jump("jmp ", ls.first), Mark(ls.second)]))))
  }

  /** `genAssign`: banner; when the target node exists, the expression and
      a copy of its temporary into the variable. */
  function AssignStmt(nodos: map<int, Nodo>, isNum: string -> bool, g: Gen, leftIdx: int, rightIdx: int): Out
    requires WellFormed(nodos)
    decreases MaxRank(leftIdx, rightIdx), 2
  {
    var varNode := Lookup(nodos, leftIdx);
    if varNode == null then Lines(g, AssignBanner)
    else AssignTail(g, varNode.valor, Expr(nodos, isNum, g, rightIdx))
  }

  function AssignTail(g: Gen, target: string, e: Emitted): Out {
    Then(Then(Lines(g, AssignBanner), e.out), Lines(e.out.gen, [Mem("FLD  ", e.temp), Mem("FSTP ", Var(target))]))
  }

  // ---------------------------------------------------------------------
  // What the fixed code blocks contain
  // ---------------------------------------------------------------------

  /** Code that places no label and jumps nowhere. */
  ghost predicate NoLabels(code: seq<Line>) {
    forall ln | ln in code :: !ln.Mark? && !ln.Jump?
  }

  /** The generated operands `code` loads or stores are among `xs`. */
  ghost predicate UsesOnly(code: seq<Line>, xs: set<Name>) {
    forall ln | ln in code && ln.Mem? && !ln.x.Var? :: ln.x in xs
  }

  lemma LoadCodePlain(comment: string, src: Name, tmp: Name)
    ensures NoLabels(LoadCode(comment, src, tmp))
    ensures src.Var? ==> UsesOnly(LoadCode(comment, src, tmp), {tmp})
    ensures UsesOnly(LoadCode(comment, src, tmp), {src, tmp})
  {
  }

  lemma BinOpCodePlain(op: string, left: Name, right: Name, res: Name)
    ensures NoLabels(BinOpCode(op, left, right, res)) && UsesOnly(BinOpCode(op, left, right, res), {left, right, res})
  {
    var a := [Blank, Text("; --- BinOp " + op + " ---"), Mem("FLD ", right), Mem("FLD ", left)];
    var b := BinOpLines(op);
    var c := [Mem("FSTP ", res), Blank];
    assert forall ln | ln in b :: ln.Text?;
    assert forall ln | ln in a + b + c :: ln in a || ln in b || ln in c;
  }

  /** The `genModOp` block never mentions `tempFloor`. */
  lemma ModCodePlain(left: Name, right: Name, m: ModAlloc)
    ensures NoLabels(ModCode(left, right, m))
    ensures UsesOnly(ModCode(left, right, m), {left, right, m.div, m.slot, m.floorFloat, m.mul, m.res})
  {
    ModCodeNoLabels(left, right, m);
    ModCodeUses(left, right, m);
  }

  lemma ModCodeNoLabels(left: Name, right: Name, m: ModAlloc)
    ensures NoLabels(ModCode(left, right, m))
  {
  }

  lemma ModCodeUses(left: Name, right: Name, m: ModAlloc)
    ensures UsesOnly(ModCode(left, right, m), {left, right, m.div, m.slot, m.floorFloat, m.mul, m.res})
  {
  }
}

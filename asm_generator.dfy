/** `AsmCodeGenerator`: the two text buffers and three counters the source
    keeps in static fields, as one object whose methods append to them.
    Every routine is proved to append exactly the lines the matching
    function of `AsmSpec` describes and to leave the counters where that
    function leaves them. */
module AsmGenerator {
  import opened Nodos
  import opened Arena
  import opened AsmText
  import opened AsmSpec
  import opened Decimal
  import opened SymbolTable
  import opened AsmProgram
  import opened AsmProps

  /** Three outputs appended one after the other to buffers that held `d`
      and `c`. */
  lemma Appended3(d: seq<Line>, c: seq<Line>, a: Out, b: Out, e: Out)
    ensures d + a.data + b.data + e.data == d + Then(Then(a, b), e).data
    ensures c + a.code + b.code + e.code == c + Then(Then(a, b), e).code
  {
  }

  /** A block, both operands' lines and a tail, appended one after the other. */
  lemma Reassociate(d: seq<Line>, a: seq<Line>, l: seq<Line>, r: seq<Line>, x: seq<Line>)
    ensures d + a + l + r + x == d + ((a + (l + r)) + x)
  {
  }

  lemma ReassociateData(d: seq<Line>, l: seq<Line>, r: seq<Line>, x: seq<Line>)
    ensures d + l + r + x == d + (([] + (l + r)) + x)
  {
  }

  /** Both operands' lines, then the three parts of a comparison block. */
  lemma CmpReassociate(c: seq<Line>, l: seq<Line>, r: seq<Line>, hd: seq<Line>, j: seq<Line>, tl: seq<Line>)
    ensures c + l + r + hd + j + tl == c + ((l + r) + (hd + j + tl))
  {
  }

  lemma ReassociatePair(d: seq<Line>, l: seq<Line>, r: seq<Line>, x: seq<Line>)
    ensures d + l + r + x == d + ((l + r) + x)
  {
  }

  lemma Reassociate2(d: seq<Line>, a: seq<Line>, b: seq<Line>)
    ensures d + a + b == d + (a + b)
  {
  }

  /** `genIf` without `cuerpo`, as the source appends it. */
  lemma IfSteps(d: seq<Line>, c: seq<Line>, g: Gen, cond: Emitted, body: Out)
    ensures var ls := IfLabels(cond);
      var o := IfTail(g, cond, body);
      && o.gen == body.gen
      && d + cond.out.data + body.data == d + o.data
      && c + IfBanner + cond.out.code + TestZero(cond.temp, ls.first) + body.code + [Mark(ls.first)] + [Mark(ls.second)]
        == c + o.code
  {
    var ls := IfLabels(cond);
    assert IfTail(g, cond, body).data == (([] + cond.out.data) + []) + (body.data + []);
    assert [Mark(ls.first)] + [Mark(ls.second)] == [Mark(ls.first), Mark(ls.second)];
  }

  /** `genIf` with `cuerpo`, as the source appends it. */
  lemma IfElseSteps(d: seq<Line>, c: seq<Line>, g: Gen, cond: Emitted, tru: Out, fls: Out)
    ensures var ls := IfLabels(cond);
      var o := IfElseTail(g, cond, tru, fls);
      && o.gen == fls.gen
      && d + cond.out.data + tru.data + fls.data == d + o.data
      && c + IfBanner + cond.out.code + TestZero(cond.temp, ls.first) + tru.code + [Jump("jmp ", ls.second), Mark(ls.first)]
          + fls.code + [Mark(ls.second)]
        == c + o.code
  {
    assert IfElseTail(g, cond, tru, fls).data == (([] + cond.out.data) + []) + ((tru.data + []) + (fls.data + []));
  }

  /** `genWhile`, as the source appends it. */
  lemma WhileSteps(d: seq<Line>, c: seq<Line>, g: Gen, cond: Emitted, body: Out)
    ensures var ls := WhileLabels(g);
      var o := WhileTail(g, cond, body);
      && o.gen == body.gen
      && d + cond.out.data + body.data == d + o.data
      && c + WhileBanner + [Mark(ls.first)] + cond.out.code + TestZero(cond.temp, ls.second) + body.code
          + [Jump("jmp ", ls.first), Mark(ls.second)]
        == c + o.code
  {
    assert WhileTail(g, cond, body).data == ([] + cond.out.data) + ([] + (body.data + []));
  }

  /** `genAssign` with a stored target, as the source appends it. */
  lemma AssignSteps(d: seq<Line>, c: seq<Line>, g: Gen, target: string, e: Emitted)
    ensures var o := AssignTail(g, target, e);
      && o.gen == e.out.gen
      && d + e.out.data == d + o.data
      && c + AssignBanner + e.out.code + [Mem("FLD  ", e.temp), Mem("FSTP ", Var(target))] == c + o.code
  {
    assert AssignTail(g, target, e).data == ([] + e.out.data) + [];
  }

  /** One more entry visited. */
  lemma UserDeclsSnoc(order: seq<string>, k: string, table: map<string, SymbolEntry>)
    requires forall x | x in order :: x in table
    requires k in table
    ensures UserDecls(order + [k], table) == UserDecls(order, table) + [UserDecl(k, table[k])]
  {
    var a, b := UserDecls(order + [k], table), UserDecls(order, table) + [UserDecl(k, table[k])];
    assert |a| == |b|;
    forall i | 0 <= i < |a|
      ensures a[i] == b[i]
    {
      if i < |order| {
        assert (order + [k])[i] == order[i];
      }
    }
  }

  /** The data and code sections as `generateAssembler` builds them from
      empty buffers. */
  lemma SectionsShape(h: seq<Line>, u: seq<Line>, v: seq<Line>, d: seq<Line>,
                      ch: seq<Line>, c: seq<Line>, cf: seq<Line>)
    ensures [] + h + u + v + d == h + u + v + d
    ensures [] + ch + c + cf == ch + c + cf
  {
  }

  /** Six sequences appended one after the other. */
  lemma Append6(d: seq<Line>, a1: seq<Line>, a2: seq<Line>, a3: seq<Line>, a4: seq<Line>, a5: seq<Line>, a6: seq<Line>)
    ensures d + a1 + a2 + a3 + a4 + a5 + a6 == d + (a1 + (a2 + (a3 + (a4 + (a5 + a6)))))
  {
  }

  /** What `genModOp` appends after its operands, as the source interleaves
      the six allocations with its six pieces of code, is the block
      `ModAllocate` and `ModCode` describe. */
  lemma ModSteps(d: seq<Line>, c: seq<Line>, g: Gen, left: Name, right: Name,
                 div: Emitted, floor: Emitted, slot: Emitted, floorFloat: Emitted, mul: Emitted, res: Emitted)
    requires div == AsmSpec.NewTemp(g) && floor == AsmSpec.NewTemp(div.out.gen)
    requires slot == DefineIntSlot(floor.out.gen) && floorFloat == AsmSpec.NewTemp(slot.out.gen)
    requires mul == AsmSpec.NewTemp(floorFloat.out.gen) && res == AsmSpec.NewTemp(mul.out.gen)
    ensures var m := ModAllocate(g);
      && res.out.gen == m.out.gen && res.temp == m.res
      && d + div.out.data + floor.out.data + slot.out.data + floorFloat.out.data + mul.out.data + res.out.data
        == d + m.out.data
      && c + [Text("\t;  Div = left / right"), Mem("FLD ", right), Mem("FLD ", left), Text("\tFDIV ST0, ST1"),
          Mem("FSTP ", div.temp), Text("\tFSTP ST0")]
        + [Text("\t; Convert float->int => floor"), Mem("FLD ", div.temp)]
        + [Mem("FISTP ", slot.temp)]
        + [Mem("FLD  ", slot.temp), Mem("FSTP ", floorFloat.temp)]
        + [Blank, Text("; mulTemp = floorDiv * right"), Mem("FLD ", right), Mem("FLD ", floorFloat.temp),
          Text("\tFMUL ST0, ST1"), Mem("FSTP ", mul.temp), Text("\tFSTP ST0")]
        + [Blank, Text("; mod = left - mulTemp"), Mem("FLD ", left), Mem("FSUB ", mul.temp), Mem("FSTP ", res.temp)]
        == c + ModCode(left, right, m)
  {
    ModDataSteps(d, g, div, floor, slot, floorFloat, mul, res);
    ModCodeSplit(c, left, right, ModAllocate(g));
  }

  lemma ModDataSteps(d: seq<Line>, g: Gen, div: Emitted, floor: Emitted, slot: Emitted, floorFloat: Emitted, mul: Emitted, res: Emitted)
    requires div == AsmSpec.NewTemp(g) && floor == AsmSpec.NewTemp(div.out.gen)
    requires slot == DefineIntSlot(floor.out.gen) && floorFloat == AsmSpec.NewTemp(slot.out.gen)
    requires mul == AsmSpec.NewTemp(floorFloat.out.gen) && res == AsmSpec.NewTemp(mul.out.gen)
    ensures var m := ModAllocate(g);
      && res.out.gen == m.out.gen && div.temp == m.div && slot.temp == m.slot && floorFloat.temp == m.floorFloat
      && mul.temp == m.mul && res.temp == m.res
      && d + div.out.data + floor.out.data + slot.out.data + floorFloat.out.data + mul.out.data + res.out.data
        == d + m.out.data
  {
    Append6(d, div.out.data, floor.out.data, slot.out.data, floorFloat.out.data, mul.out.data, res.out.data);
  }

  /** The `genModOp` block as the source appends it, one piece after each
      allocation. */
  lemma ModCodeSplit(c: seq<Line>, left: Name, right: Name, m: ModAlloc)
    ensures c + [Text("\t;  Div = left / right"), Mem("FLD ", right), Mem("FLD ", left), Text("\tFDIV ST0, ST1"),
        Mem("FSTP ", m.div), Text("\tFSTP ST0")]
      + [Text("\t; Convert float->int => floor"), Mem("FLD ", m.div)]
      + [Mem("FISTP ", m.slot)]
      + [Mem("FLD  ", m.slot), Mem("FSTP ", m.floorFloat)]
      + [Blank, Text("; mulTemp = floorDiv * right"), Mem("FLD ", right), Mem("FLD ", m.floorFloat),
        Text("\tFMUL ST0, ST1"), Mem("FSTP ", m.mul), Text("\tFSTP ST0")]
      + [Blank, Text("; mod = left - mulTemp"), Mem("FLD ", left), Mem("FSUB ", m.mul), Mem("FSTP ", m.res)]
      == c + ModCode(left, right, m)
  {
  }

  /** The keys visited so far, each once, are those no longer remaining. */
  ghost predicate Visited(order: seq<string>, remaining: set<string>, table: map<string, SymbolEntry>) {
    && remaining <= table.Keys
    && (forall i, j | 0 <= i < j < |order| :: order[i] != order[j])
    && (forall k :: k in order <==> k in table && k !in remaining)
  }

  /** Each visited entry has been typed, the others are as they were. */
  ghost predicate Typed(entries: map<string, SymbolEntry>, remaining: set<string>, table: map<string, SymbolEntry>) {
    && entries.Keys == table.Keys
    && forall k | k in table :: entries[k] == if k in remaining then table[k] else Coerced(table[k])
  }

  lemma VisitStep(order: seq<string>, remaining: set<string>, table: map<string, SymbolEntry>, k: string)
    requires Visited(order, remaining, table) && k in remaining
    ensures Visited(order + [k], remaining - {k}, table)
  {
    forall i, j | 0 <= i < j < |order + [k]|
      ensures (order + [k])[i] != (order + [k])[j]
    {
      if j == |order| {
        assert (order + [k])[i] == order[i] && order[i] in order;
      } else {
        assert (order + [k])[i] == order[i] && (order + [k])[j] == order[j];
      }
    }
  }

  /** The state of `genUserVars`' loop: the visited keys have been typed
      and declared in visiting order, the others are untouched. */
  ghost predicate UserVarsLoop(order: seq<string>, remaining: set<string>, entries: map<string, SymbolEntry>,
                               decls: seq<Line>, table: map<string, SymbolEntry>) {
    && Visited(order, remaining, table)
    && Typed(entries, remaining, table)
    && decls == UserDecls(order, table)
  }

  /** One iteration of the loop keeps its state. */
  lemma UserVarsStep(order: seq<string>, remaining: set<string>, entries: map<string, SymbolEntry>,
                     decls: seq<Line>, table: map<string, SymbolEntry>, k: string)
    requires UserVarsLoop(order, remaining, entries, decls, table) && k in remaining
    ensures entries[k] == table[k]
    ensures UserVarsLoop(order + [k], remaining - {k}, entries[k := Coerced(entries[k])],
                         decls + [UserDecl(k, table[k])], table)
  {
    VisitStep(order, remaining, table, k);
    UserDeclsSnoc(order, k, table);
  }

  /** When no key remains, the loop has declared and typed the whole table. */
  lemma UserVarsDone(order: seq<string>, entries: map<string, SymbolEntry>,
                     decls: seq<Line>, table: map<string, SymbolEntry>)
    requires UserVarsLoop(order, {}, entries, decls, table)
    ensures Enumerates(order, table)
    ensures entries == CoerceAll(table)
    ensures decls == UserDecls(order, table)
  {
    VisitedAll(order, table);
    TypedAll(entries, table);
  }

  lemma VisitedAll(order: seq<string>, table: map<string, SymbolEntry>)
    requires Visited(order, {}, table)
    ensures Enumerates(order, table)
  {
  }

  lemma TypedAll(entries: map<string, SymbolEntry>, table: map<string, SymbolEntry>)
    requires Typed(entries, {}, table)
    ensures entries == CoerceAll(table)
  {
    var all := CoerceAll(table);
    assert entries.Keys == all.Keys;
    forall k | k in table
      ensures entries[k] == all[k]
    {
    }
  }

  /** The loop of `genUserVars` over the table's entries: each key, in
      some order, gets the declaration its type selects, and an entry with
      no type is given FLOAT. */
  method DeclareUserVars(table: map<string, SymbolEntry>)
    returns (entries: map<string, SymbolEntry>, decls: seq<Line>, ghost order: seq<string>)
    ensures Enumerates(order, table)
    ensures entries == CoerceAll(table)
    ensures decls == UserDecls(order, table)
  {
    entries := table;
    decls := [];
    var remaining := table.Keys;
    order := [];
    while remaining != {}
      invariant UserVarsLoop(order, remaining, entries, decls, table)
      decreases |remaining|
    {
      var nombre :| nombre in remaining;
      UserVarsStep(order, remaining, entries, decls, table, nombre);
      var sym := entries[nombre];
      if sym.dataType.None? {
        sym := sym.(dataType := Some(FloatType));
      }
      entries := entries[nombre := sym];
      decls := decls + [Decl(Var(nombre), DeclInit(sym.dataType.value))];
      order := order + [nombre];
      remaining := remaining - {nombre};
    }
    UserVarsDone(order, entries, decls, table);
  }

  class AsmCodeGenerator {
    var dataSection: seq<Line>
    var codeSection: seq<Line>
    var tempCount: nat
    var labelCount: nat
    var intSlotCount: nat
    var declaredTemps: set<string>
    /** The node store the walk reads (`GestorNodos`). */
    const gestor: GestorNodos
    /** `esNumero`: whether a leaf's text parses as a number. */
    const isNum: string -> bool
    /** The symbol table whose entries become user variables. */
    const tabla: SymbolTableManager

    /** The counters, as the functions of `AsmSpec` take them. */
    function State(): (g: Gen)
      reads this
      ensures g.temps == tempCount && g.labels == labelCount && g.slots == intSlotCount
      ensures g.declared == declaredTemps
    {
      Gen(tempCount, labelCount, intSlotCount, declaredTemps)
    }

    constructor (gestor: GestorNodos, tabla: SymbolTableManager, isNum: string -> bool)
      ensures dataSection == [] && codeSection == [] && declaredTemps == {}
      ensures tempCount == 0 && labelCount == 0 && intSlotCount == 0
      ensures this.gestor == gestor && this.tabla == tabla && this.isNum == isNum
    {
      dataSection := [];
      codeSection := [];
      tempCount := 0;
      labelCount := 0;
      intSlotCount := 0;
      declaredTemps := {};
      this.gestor := gestor;
      this.isNum := isNum;
      this.tabla := tabla;
    }

    method Emit(lines: seq<Line>)
      modifies this
      ensures codeSection == old(codeSection) + lines
      ensures dataSection == old(dataSection) && State() == old(State())
    {
      codeSection := codeSection + lines;
    }

    // -------------------------------------------------------------------
    // Allocation
    // -------------------------------------------------------------------

    /** newTemp */
    method NewTemp() returns (tmp: Name)
      modifies this
      ensures var e := AsmSpec.NewTemp(old(State()));
        && State() == e.out.gen && tmp == e.temp
        && dataSection == old(dataSection) + e.out.data && codeSection == old(codeSection)
    {
      tempCount := tempCount + 1;
      tmp := Tmp(tempCount);
      var text := NameText(tmp);
      if text !in declaredTemps {
        dataSection := dataSection + [Decl(tmp, "DD 0.0")];
        declaredTemps := declaredTemps + {text};
      }
    }

    /** defineLiteral */
    method DefineLiteral(val: string) returns (lit: Name)
      modifies this
      ensures var e := AsmSpec.DefineLiteral(old(State()), val);
        && State() == e.out.gen && lit == e.temp
        && dataSection == old(dataSection) + e.out.data && codeSection == old(codeSection)
    {
      tempCount := tempCount + 1;
      lit := Lit(tempCount);
      var text := NameText(lit);
      if text !in declaredTemps {
        dataSection := dataSection + [Decl(lit, "DD " + val)];
        declaredTemps := declaredTemps + {text};
      }
    }

    /** defineIntSlot */
    method DefineIntSlot() returns (slot: Name)
      modifies this
      ensures var e := AsmSpec.DefineIntSlot(old(State()));
        && State() == e.out.gen && slot == e.temp
        && dataSection == old(dataSection) + e.out.data && codeSection == old(codeSection)
    {
      intSlotCount := intSlotCount + 1;
      slot := IntSlot(intSlotCount);
      dataSection := dataSection + [Decl(slot, "DD 0")];
    }

    /** newLabel */
    method NewLabel(base: LabelBase) returns (name: Label)
      modifies this
      ensures var r := AsmSpec.NewLabel(old(State()), base);
        && State() == r.gen && name == r.name
        && dataSection == old(dataSection) && codeSection == old(codeSection)
    {
      labelCount := labelCount + 1;
      name := Label(base, labelCount);
    }

    // -------------------------------------------------------------------
    // Expressions
    // -------------------------------------------------------------------

    /** genExpr */
    method GenExpr(index: int) returns (tmp: Name)
      requires gestor.Valid()
      modifies this
      ensures var e := Expr(gestor.nodos, isNum, old(State()), index);
        && State() == e.out.gen && tmp == e.temp
        && dataSection == old(dataSection) + e.out.data && codeSection == old(codeSection) + e.out.code
      decreases Rank(index), 0
    {
      ExprDispatch(gestor.nodos, isNum, State(), index);
      if index == 0 {
        tmp := GenZero("; genExpr(0)->0.0");
        return;
      }
      var nodo := gestor.ObtenerNodo(index);
      if nodo == null {
        tmp := GenZero("; nodo null->0.0");
        return;
      }
      var val := nodo.valor;
      var leftIdx, rightIdx := IndexOf(nodo.izquierdo), IndexOf(nodo.derecho);
      if IsArith(val) {
        tmp := GenBinaryFloatOp(val, leftIdx, rightIdx);
      } else if val == "%" {
        tmp := GenModOp(leftIdx, rightIdx);
      } else if IsRelational(val) {
        tmp := GenComparison(val, leftIdx, rightIdx);
      } else {
        tmp := GenLiteralOrVar(val);
      }
    }

    /** The two fallbacks of genExpr: a fresh temporary set to zero. */
    method GenZero(comment: string) returns (tmp: Name)
      modifies this
      ensures var e := ExprZero(old(State()), comment);
        && State() == e.out.gen && tmp == e.temp
        && dataSection == old(dataSection) + e.out.data && codeSection == old(codeSection) + e.out.code
    {
      tmp := NewTemp();
      Emit([Text(comment), Text("\tFLDZ"), Mem("FSTP ", tmp)]);
    }

    /** genLiteralOrVar */
    method GenLiteralOrVar(val: string) returns (tmp: Name)
      modifies this
      ensures var e := LiteralOrVar(isNum, old(State()), val);
        && State() == e.out.gen && tmp == e.temp
        && dataSection == old(dataSection) + e.out.data && codeSection == old(codeSection) + e.out.code
    {
      tmp := NewTemp();
      if isNum(val) {
        var lit := DefineLiteral(val);
        Emit([Blank, Text("; cargar literal " + val), Mem("FLD ", lit)]);
      } else {
        Emit([Blank, Text("; cargar variable " + val), Mem("FLD ", Var(val))]);
      }
      Emit([Mem("FSTP ", tmp)]);
    }

    /** genBinaryFloatOp */
    method GenBinaryFloatOp(op: string, leftIdx: int, rightIdx: int) returns (result: Name)
      requires gestor.Valid()
      modifies this
      ensures var e := BinaryFloatOp(gestor.nodos, isNum, old(State()), op, leftIdx, rightIdx);
        && State() == e.out.gen && result == e.temp
        && dataSection == old(dataSection) + e.out.data && codeSection == old(codeSection) + e.out.code
      decreases MaxRank(leftIdx, rightIdx), 2
    {
      ghost var g0, d0, c0 := State(), dataSection, codeSection;
      ghost var nodos := gestor.nodos;
      var leftTemp := GenExpr(leftIdx);
      ghost var left := Expr(nodos, isNum, g0, leftIdx);
      var rightTemp := GenExpr(rightIdx);
      ghost var right := Expr(nodos, isNum, left.out.gen, rightIdx);
      result := NewTemp();
      ghost var t := AsmSpec.NewTemp(right.out.gen);
      Emit(BinOpCode(op, leftTemp, rightTemp, result));
      Appended3(d0, c0, left.out, right.out, t.out.(code := BinOpCode(op, leftTemp, rightTemp, result)));
    }

    /** genModOp */
    method GenModOp(leftIdx: int, rightIdx: int) returns (resultMod: Name)
      requires gestor.Valid()
      modifies this
      ensures var e := ModOp(gestor.nodos, isNum, old(State()), leftIdx, rightIdx);
        && State() == e.out.gen && resultMod == e.temp
        && dataSection == old(dataSection) + e.out.data && codeSection == old(codeSection) + e.out.code
      decreases MaxRank(leftIdx, rightIdx), 2
    {
      ghost var g0, d0, c0 := State(), dataSection, codeSection;
      ghost var nodos := gestor.nodos;
      Emit(ModBanner);
      var leftTemp := GenExpr(leftIdx);
      ghost var left := Expr(nodos, isNum, g0, leftIdx);
      var rightTemp := GenExpr(rightIdx);
      ghost var right := Expr(nodos, isNum, left.out.gen, rightIdx);
      ghost var d1, c1 := dataSection, codeSection;

      ghost var div := AsmSpec.NewTemp(State());
      var resultDiv := NewTemp();
      Emit([Text("\t;  Div = left / right"), Mem("FLD ", rightTemp), Mem("FLD ", leftTemp), Text("\tFDIV ST0, ST1"),
        Mem("FSTP ", resultDiv), Text("\tFSTP ST0")]);

      ghost var floor := AsmSpec.NewTemp(State());
      var tempFloor := NewTemp();
      Emit([Text("\t; Convert float->int => floor"), Mem("FLD ", resultDiv)]);
      ghost var slot := AsmSpec.DefineIntSlot(State());
      var intSlot := DefineIntSlot();
      Emit([Mem("FISTP ", intSlot)]);

      ghost var floorFloat' := AsmSpec.NewTemp(State());
      var floorFloat := NewTemp();
      Emit([Mem("FLD  ", intSlot), Mem("FSTP ", floorFloat)]);

      ghost var mul := AsmSpec.NewTemp(State());
      var mulTemp := NewTemp();
      Emit([Blank, Text("; mulTemp = floorDiv * right"), Mem("FLD ", rightTemp), Mem("FLD ", floorFloat),
        Text("\tFMUL ST0, ST1"), Mem("FSTP ", mulTemp), Text("\tFSTP ST0")]);

      ghost var res := AsmSpec.NewTemp(State());
      resultMod := NewTemp();
      Emit([Blank, Text("; mod = left - mulTemp"), Mem("FLD ", leftTemp), Mem("FSUB ", mulTemp), Mem("FSTP ", resultMod)]);

      ModSteps(d1, c1, right.out.gen, leftTemp, rightTemp, div, floor, slot, floorFloat', mul, res);
      ghost var m := ModAllocate(right.out.gen);
      ReassociateData(d0, left.out.data, right.out.data, m.out.data);
      Reassociate(c0, ModBanner, left.out.code, right.out.code, ModCode(leftTemp, rightTemp, m));
      ModOpUnfold(nodos, isNum, g0, leftIdx, rightIdx);
    }

    /** genComparison */
    method GenComparison(op: string, leftIdx: int, rightIdx: int) returns (result: Name)
      requires gestor.Valid()
      modifies this
      ensures var e := Comparison(gestor.nodos, isNum, old(State()), op, leftIdx, rightIdx);
        && State() == e.out.gen && result == e.temp
        && dataSection == old(dataSection) + e.out.data && codeSection == old(codeSection) + e.out.code
      decreases MaxRank(leftIdx, rightIdx), 2
    {
      ghost var g0, d0, c0 := State(), dataSection, codeSection;
      ghost var nodos := gestor.nodos;
      var leftTemp := GenExpr(leftIdx);
      ghost var left := Expr(nodos, isNum, g0, leftIdx);
      var rightTemp := GenExpr(rightIdx);
      ghost var right := Expr(nodos, isNum, left.out.gen, rightIdx);
      result := NewTemp();
      Emit(CmpHead(op, leftTemp, rightTemp));
      var labelTrue := NewLabel(CmpTrue);
      var labelEnd := NewLabel(CmpEnd);
      Emit(CmpJump(op, labelEnd));
      Emit(CmpEndCode(labelTrue, labelEnd, result));
      ComparisonUnfold(nodos, isNum, g0, op, leftIdx, rightIdx);
      CmpReassociate(c0, left.out.code, right.out.code, CmpHead(op, leftTemp, rightTemp), CmpJump(op, labelEnd),
        CmpEndCode(labelTrue, labelEnd, result));
      ReassociatePair(d0, left.out.data, right.out.data, AsmSpec.NewTemp(right.out.gen).out.data);
    }

    // -------------------------------------------------------------------
    // Statements
    // -------------------------------------------------------------------

    /** genStatement */
    method GenStatement(index: int)
      requires gestor.Valid()
      modifies this
      ensures var o := Stmt(gestor.nodos, isNum, old(State()), index);
        && State() == o.gen
        && dataSection == old(dataSection) + o.data && codeSection == old(codeSection) + o.code
      decreases Rank(index), 1
    {
      StmtDispatch(gestor.nodos, isNum, State(), index);
      if index == 0 {
        return;
      }
      var nodo := gestor.ObtenerNodo(index);
      if nodo == null {
        return;
      }
      var val := nodo.valor;
      var leftIdx, rightIdx := IndexOf(nodo.izquierdo), IndexOf(nodo.derecho);
      if val == ";" {
        ghost var d0, c0 := dataSection, codeSection;
        GenStatement(leftIdx);
        ghost var d1, c1 := dataSection, codeSection;
        GenStatement(rightIdx);
        ghost var left := Stmt(gestor.nodos, isNum, old(State()), leftIdx);
        ghost var right := Stmt(gestor.nodos, isNum, left.gen, rightIdx);
        Reassociate2(d0, left.data, right.data);
        Reassociate2(c0, left.code, right.code);
      } else if val == "if" {
        GenIf(leftIdx, rightIdx);
      } else if val == "while" {
        GenWhile(leftIdx, rightIdx);
      } else if val == "=" {
        GenAssign(leftIdx, rightIdx);
      } else {
        var discarded := GenExpr(index);
      }
    }

    /** genIf */
    method GenIf(condIdx: int, bodyIdx: int)
      requires gestor.Valid()
      modifies this
      ensures var o := IfStmt(gestor.nodos, isNum, old(State()), condIdx, bodyIdx);
        && State() == o.gen
        && dataSection == old(dataSection) + o.data && codeSection == old(codeSection) + o.code
      decreases MaxRank(condIdx, bodyIdx), 2
    {
      ghost var g0, d0, c0 := State(), dataSection, codeSection;
      ghost var nodos := gestor.nodos;
      IfUnfold(nodos, isNum, g0, condIdx, bodyIdx);
      Emit(IfBanner);
      var condTemp := GenExpr(condIdx);
      ghost var cond := Expr(nodos, isNum, g0, condIdx);
      var labelElse := NewLabel(Else);
      var labelEnd := NewLabel(EndIf);
      Emit(TestZero(condTemp, labelElse));
      ghost var d1, c1 := dataSection, codeSection;
      var bodyNode := gestor.ObtenerNodo(bodyIdx);
      if bodyNode != null && bodyNode.valor == "cuerpo" {
        var truePartIdx, falsePartIdx := IndexOf(bodyNode.izquierdo), IndexOf(bodyNode.derecho);
        GenStatement(truePartIdx);
        ghost var tru := Stmt(nodos, isNum, IfLabels(cond).gen, truePartIdx);
        Emit([Jump("jmp ", labelEnd), Mark(labelElse)]);
        GenStatement(falsePartIdx);
        ghost var fls := Stmt(nodos, isNum, tru.gen, falsePartIdx);
        Emit([Mark(labelEnd)]);
        IfElseSteps(d0, c0, g0, cond, tru, fls);
      } else {
        GenStatement(bodyIdx);
        ghost var body := Stmt(nodos, isNum, IfLabels(cond).gen, bodyIdx);
        Emit([Mark(labelElse)]);
        Emit([Mark(labelEnd)]);
        IfSteps(d0, c0, g0, cond, body);
      }
    }

    /** genWhile */
    method GenWhile(condIdx: int, bodyIdx: int)
      requires gestor.Valid()
      modifies this
      ensures var o := WhileStmt(gestor.nodos, isNum, old(State()), condIdx, bodyIdx);
        && State() == o.gen
        && dataSection == old(dataSection) + o.data && codeSection == old(codeSection) + o.code
      decreases MaxRank(condIdx, bodyIdx), 2
    {
      ghost var g0, d0, c0 := State(), dataSection, codeSection;
      ghost var nodos := gestor.nodos;
      Emit(WhileBanner);
      var labelWhile := NewLabel(While);
      var labelEnd := NewLabel(EndWhile);
      Emit([Mark(labelWhile)]);
      var condTemp := GenExpr(condIdx);
      ghost var cond := Expr(nodos, isNum, WhileLabels(g0).gen, condIdx);
      Emit(TestZero(condTemp, labelEnd));
      GenStatement(bodyIdx);
      ghost var body := Stmt(nodos, isNum, cond.out.gen, bodyIdx);
      Emit([Jump("jmp ", labelWhile), Mark(labelEnd)]);
      WhileSteps(d0, c0, g0, cond, body);
    }

    /** genAssign */
    method GenAssign(leftIdx: int, rightIdx: int)
      requires gestor.Valid()
      modifies this
      ensures var o := AssignStmt(gestor.nodos, isNum, old(State()), leftIdx, rightIdx);
        && State() == o.gen
        && dataSection == old(dataSection) + o.data && codeSection == old(codeSection) + o.code
      decreases MaxRank(leftIdx, rightIdx), 2
    {
      ghost var g0, d0, c0 := State(), dataSection, codeSection;
      Emit(AssignBanner);
      var varNode := gestor.ObtenerNodo(leftIdx);
      if varNode == null {
        return;
      }
      var varName := varNode.valor;
      var exprTemp := GenExpr(rightIdx);
      ghost var e := Expr(gestor.nodos, isNum, g0, rightIdx);
      Emit([Mem("FLD  ", exprTemp), Mem("FSTP ", Var(varName))]);
      AssignSteps(d0, c0, g0, varName, e);
    }

    // -------------------------------------------------------------------
    // The whole file
    // -------------------------------------------------------------------

    /** generateAssembler, up to the file write: `intSlotCount` is the one
        counter not reset, so a second run numbers its int slots on. */
    method GenerateAssembler(rootIndex: int) returns (asm: string, ghost order: seq<string>)
      requires gestor.Valid()
      modifies this, tabla
      ensures var o := Stmt(gestor.nodos, isNum, Gen(0, 0, old(intSlotCount), {}), rootIndex);
        && Enumerates(order, old(tabla.symbolTable))
        && tabla.symbolTable == CoerceAll(old(tabla.symbolTable))
        && dataSection == ProgramData(order, old(tabla.symbolTable), o)
        && codeSection == ProgramCode(o)
        && State() == o.gen
        && asm == Render(dataSection) + Render(codeSection)
      ensures Assembles(dataSection, codeSection)
      ensures old(tabla.Valid()) ==> tabla.Valid()
    {
      ghost var nodos, slots0, table0 := gestor.nodos, intSlotCount, tabla.symbolTable;
      order := GenerateSections(rootIndex);
      asm := Render(dataSection) + Render(codeSection);
      GeneratedFileAssembles(nodos, isNum, slots0, rootIndex, order, table0);
    }

    /** The body of `generateAssembler` up to the file write: reset the
        buffers and counters (all but the integer-slot counter), then the
        data header, the user variables, the compiler's variables, the code
        header, the program's statements and the code footer. */
    method GenerateSections(rootIndex: int) returns (ghost order: seq<string>)
      requires gestor.Valid()
      modifies this, tabla
      ensures var o := Stmt(gestor.nodos, isNum, Gen(0, 0, old(intSlotCount), {}), rootIndex);
        && Enumerates(order, old(tabla.symbolTable))
        && tabla.symbolTable == CoerceAll(old(tabla.symbolTable))
        && dataSection == ProgramData(order, old(tabla.symbolTable), o)
        && codeSection == ProgramCode(o)
        && State() == o.gen
    {
      ghost var nodos, slots0, table0 := gestor.nodos, intSlotCount, tabla.symbolTable;
      dataSection := [];
      codeSection := [];
      declaredTemps := {};
      tempCount := 0;
      labelCount := 0;

      dataSection := dataSection + DataHeader;
      order := GenUserVars();
      dataSection := dataSection + CompilerVars;

      codeSection := codeSection + CodeHeader;
      ghost var d1, c1, g1 := dataSection, codeSection, State();
      assert g1 == Gen(0, 0, slots0, {});
      GenStatement(rootIndex);
      ghost var o := Stmt(nodos, isNum, g1, rootIndex);
      codeSection := codeSection + CodeFooter;
      SectionsShape(DataHeader, UserDecls(order, table0) + [Blank], CompilerVars, o.data, CodeHeader, o.code, CodeFooter);
    }

    /** genUserVars: one declaration per table entry, in the table's
        iteration order (which the source leaves to `HashMap`, so here it is
        any order), then a blank line; an entry without a type is given
        FLOAT in the table itself. */
    method GenUserVars() returns (ghost order: seq<string>)
      modifies this, tabla
      ensures Enumerates(order, old(tabla.symbolTable))
      ensures tabla.symbolTable == CoerceAll(old(tabla.symbolTable))
      ensures dataSection == old(dataSection) + (UserDecls(order, old(tabla.symbolTable)) + [Blank])
      ensures codeSection == old(codeSection) && State() == old(State())
    {
      var entries, decls;
      entries, decls, order := DeclareUserVars(tabla.symbolTable);
      tabla.symbolTable := entries;
      dataSection := dataSection + (decls + [Blank]);
    }
  }
}

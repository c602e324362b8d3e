/** Operands: every `@tmp`, `@lit` and `@intSlot` a routine loads or stores
    was allocated by that routine (so it is recorded in `declaredTemps`, or
    numbered within its int slots), and every expression hands back a fresh
    `@tmp` of its own. */
module AsmRefs {
  import opened Nodos
  import opened Arena
  import opened AsmText
  import opened AsmSpec

  /** `x` was allocated between the counters `g` and `h` (a user variable
      is never allocated by the generator and always qualifies). */
  ghost predicate Ref(x: Name, g: Gen, h: Gen) {
    match x
    case Var(_) => true
    case IntSlot(n) => g.slots < n <= h.slots
    case _ => g.temps < x.n <= h.temps && NameText(x) in h.declared
  }

  /** Every operand `code` loads or stores was allocated between `g` and `h`. */
  ghost predicate RefsIn(code: seq<Line>, g: Gen, h: Gen) {
    forall ln | ln in code && ln.Mem? :: Ref(ln.x, g, h)
  }

  ghost predicate RefsOk(g: Gen, o: Out) {
    Grows(g, o.gen) && RefsIn(o.code, g, o.gen)
  }

  /** An expression's code refers only to its own allocations and it hands
      back one of its own `@tmp`s. */
  ghost predicate ExprOk(g: Gen, e: Emitted) {
    RefsOk(g, e.out) && e.temp.Tmp? && Ref(e.temp, g, e.out.gen)
  }

  ghost predicate PairRefs(g: Gen, left: Emitted, right: Emitted) {
    ExprOk(g, left) && ExprOk(left.out.gen, right)
  }

  // ---------------------------------------------------------------------
  // Composition
  // ---------------------------------------------------------------------

  lemma RefWiden(x: Name, g: Gen, h: Gen, g2: Gen, h2: Gen)
    requires Ref(x, g, h) && Grows(g2, g) && Grows(h, h2)
    ensures Ref(x, g2, h2)
  {
  }

  lemma RefsWiden(code: seq<Line>, g: Gen, h: Gen, g2: Gen, h2: Gen)
    requires RefsIn(code, g, h) && Grows(g2, g) && Grows(h, h2)
    ensures RefsIn(code, g2, h2)
  {
    forall ln | ln in code && ln.Mem?
      ensures Ref(ln.x, g2, h2)
    {
      RefWiden(ln.x, g, h, g2, h2);
    }
  }

  /** A routine followed by one whose code refers to anything allocated
      since `g`. */
  lemma RefsTail(g: Gen, a: Out, b: Out)
    requires RefsOk(g, a) && Grows(a.gen, b.gen) && RefsIn(b.code, g, b.gen)
    ensures RefsOk(g, Then(a, b))
  {
    RefsWiden(a.code, g, a.gen, g, b.gen);
  }

  lemma RefsThen(g: Gen, a: Out, b: Out)
    requires RefsOk(g, a) && RefsOk(a.gen, b)
    ensures RefsOk(g, Then(a, b))
  {
    RefsWiden(b.code, a.gen, b.gen, g, b.gen);
    RefsTail(g, a, b);
  }

  /** Code whose generated operands are among `xs`, all allocated. */
  lemma UsesRefs(code: seq<Line>, xs: set<Name>, g: Gen, h: Gen)
    requires UsesOnly(code, xs) && forall x | x in xs :: Ref(x, g, h)
    ensures RefsIn(code, g, h)
  {
  }

  /** Code that loads and stores nothing. */
  ghost predicate NoOperands(code: seq<Line>) {
    forall ln | ln in code :: !ln.Mem?
  }

  lemma PlainRefs(g: Gen, o: Out)
    requires NoOperands(o.code) && Grows(g, o.gen)
    ensures RefsOk(g, o)
  {
  }

  lemma BannersNoOperands()
    ensures NoOperands(ModBanner) && NoOperands(IfBanner) && NoOperands(WhileBanner) && NoOperands(AssignBanner)
  {
  }

  lemma NewTempRef(g: Gen)
    ensures Ref(NewTemp(g).temp, g, NewTemp(g).out.gen) && Grows(g, NewTemp(g).out.gen)
  {
  }

  /** Both operands' results are still allocated when the node's own
      result has been taken after them. */
  lemma PairResults(g: Gen, left: Emitted, right: Emitted, h: Gen)
    requires PairRefs(g, left, right) && Grows(right.out.gen, h)
    ensures Grows(g, h) && Ref(left.temp, g, h) && Ref(right.temp, g, h)
    ensures RefsOk(g, Then(left.out, right.out))
  {
    RefWiden(left.temp, g, left.out.gen, g, h);
    RefWiden(right.temp, left.out.gen, right.out.gen, g, h);
    RefsThen(g, left.out, right.out);
  }

  // ---------------------------------------------------------------------
  // Expressions
  // ---------------------------------------------------------------------

  lemma ExprZeroRefs(g: Gen, comment: string)
    ensures ExprOk(g, ExprZero(g, comment))
  {
    NewTempRef(g);
  }

  lemma LiteralOrVarRefs(isNum: string -> bool, g: Gen, val: string)
    ensures ExprOk(g, LiteralOrVar(isNum, g, val))
  {
    var t := NewTemp(g);
    NewTempRef(g);
    if isNum(val) {
      var lit := DefineLiteral(t.out.gen, val);
      var h := lit.out.gen;
      LoadCodePlain("; cargar literal " + val, lit.temp, t.temp);
      RefWiden(t.temp, g, t.out.gen, g, h);
      UsesRefs(LoadCode("; cargar literal " + val, lit.temp, t.temp), {lit.temp, t.temp}, g, h);
    } else {
      LoadCodePlain("; cargar variable " + val, Var(val), t.temp);
      UsesRefs(LoadCode("; cargar variable " + val, Var(val), t.temp), {t.temp}, g, t.out.gen);
    }
  }

  lemma BinOpTailRefs(g: Gen, op: string, left: Emitted, right: Emitted)
    requires PairRefs(g, left, right)
    ensures ExprOk(g, BinOpTail(op, left, right))
  {
    var t := NewTemp(right.out.gen);
    var h := t.out.gen;
    NewTempRef(right.out.gen);
    PairResults(g, left, right, h);
    RefWiden(t.temp, right.out.gen, h, g, h);
    BinOpCodePlain(op, left.temp, right.temp, t.temp);
    UsesRefs(BinOpCode(op, left.temp, right.temp, t.temp), {left.temp, right.temp, t.temp}, g, h);
    RefsTail(g, Then(left.out, right.out), t.out.(code := BinOpCode(op, left.temp, right.temp, t.temp)));
  }

  /** The five temporaries and the int slot of `genModOp` are all allocated
      by it, and recorded. */
  lemma ModAllocateRefs(g: Gen)
    ensures var m := ModAllocate(g);
      && Grows(g, m.out.gen)
      && Ref(m.div, g, m.out.gen) && Ref(m.floor, g, m.out.gen) && Ref(m.slot, g, m.out.gen)
      && Ref(m.floorFloat, g, m.out.gen) && Ref(m.mul, g, m.out.gen) && Ref(m.res, g, m.out.gen)
  {
    var div := NewTemp(g);
    var floor := NewTemp(div.out.gen);
    var slot := DefineIntSlot(floor.out.gen);
    var floorFloat := NewTemp(slot.out.gen);
    var mul := NewTemp(floorFloat.out.gen);
    var res := NewTemp(mul.out.gen);
    assert ModAllocate(g).out.gen == res.out.gen;
  }

  lemma ModCodeRefs(left: Name, right: Name, m: ModAlloc, g: Gen, h: Gen)
    requires Ref(left, g, h) && Ref(right, g, h) && Ref(m.div, g, h) && Ref(m.slot, g, h)
    requires Ref(m.floorFloat, g, h) && Ref(m.mul, g, h) && Ref(m.res, g, h)
    ensures RefsIn(ModCode(left, right, m), g, h)
  {
    ModCodePlain(left, right, m);
    UsesRefs(ModCode(left, right, m), {left, right, m.div, m.slot, m.floorFloat, m.mul, m.res}, g, h);
  }

  lemma ModTailRefs(g: Gen, left: Emitted, right: Emitted)
    requires PairRefs(g, left, right)
    ensures ExprOk(g, ModTail(g, left, right))
  {
    var m := ModAllocate(right.out.gen);
    var h := m.out.gen;
    ModAllocateRefs(right.out.gen);
    PairResults(g, left, right, h);
    RefWiden(m.div, right.out.gen, h, g, h);
    RefWiden(m.slot, right.out.gen, h, g, h);
    RefWiden(m.floorFloat, right.out.gen, h, g, h);
    RefWiden(m.mul, right.out.gen, h, g, h);
    RefWiden(m.res, right.out.gen, h, g, h);
    ModCodeRefs(left.temp, right.temp, m, g, h);
    BannersNoOperands();
    PlainRefs(g, Lines(g, ModBanner));
    RefsThen(g, Lines(g, ModBanner), Then(left.out, right.out));
    RefsTail(g, Then(Lines(g, ModBanner), Then(left.out, right.out)), m.out.(code := ModCode(left.temp, right.temp, m)));
  }

  lemma CmpCodeRefs(op: string, left: Name, right: Name, res: Name, isTrue: Label, end: Label, g: Gen, h: Gen)
    requires Ref(left, g, h) && Ref(right, g, h) && Ref(res, g, h)
    ensures RefsIn(CmpCode(op, left, right, res, isTrue, end), g, h)
  {
    assert RefsIn(CmpHead(op, left, right), g, h);
    assert NoOperands(CmpJump(op, end));
    assert RefsIn(CmpEndCode(isTrue, end, res), g, h);
  }

  lemma CmpTailRefs(g: Gen, op: string, left: Emitted, right: Emitted)
    requires PairRefs(g, left, right)
    ensures ExprOk(g, CmpTail(op, left, right))
  {
    var t := NewTemp(right.out.gen);
    var isTrue := NewLabel(t.out.gen, CmpTrue);
    var end := NewLabel(isTrue.gen, CmpEnd);
    var h := end.gen;
    NewTempRef(right.out.gen);
    PairResults(g, left, right, h);
    RefWiden(t.temp, right.out.gen, t.out.gen, g, h);
    CmpCodeRefs(op, left.temp, right.temp, t.temp, isTrue.name, end.name, g, h);
    RefsTail(g, Then(left.out, right.out), Out(h, t.out.data, CmpCode(op, left.temp, right.temp, t.temp, isTrue.name, end.name)));
  }

  /** Every expression refers only to what it allocated and hands back a
      fresh `@tmp` of its own. */
  lemma {:induction false} ExprRefs(nodos: map<int, Nodo>, isNum: string -> bool, g: Gen, index: int)
    requires WellFormed(nodos)
    ensures ExprOk(g, Expr(nodos, isNum, g, index))
    decreases Rank(index), 0
  {
    if index == 0 {
      ExprZeroRefs(g, "; genExpr(0)->0.0");
    } else {
      var n := Lookup(nodos, index);
      if n == null {
        ExprZeroRefs(g, "; nodo null->0.0");
      } else {
        var l, r := IndexOf(n.izquierdo), IndexOf(n.derecho);
        if IsArith(n.valor) {
          BinaryFloatOpRefs(nodos, isNum, g, n.valor, l, r);
        } else if n.valor == "%" {
          ModOpRefs(nodos, isNum, g, l, r);
        } else if IsRelational(n.valor) {
          ComparisonRefs(nodos, isNum, g, n.valor, l, r);
        } else {
          LiteralOrVarRefs(isNum, g, n.valor);
        }
      }
    }
  }

  lemma {:induction false} OperandsRefs(nodos: map<int, Nodo>, isNum: string -> bool, g: Gen, leftIdx: int, rightIdx: int)
    requires WellFormed(nodos)
    ensures var (left, right) := Operands(nodos, isNum, g, leftIdx, rightIdx); PairRefs(g, left, right)
    decreases MaxRank(leftIdx, rightIdx), 1
  {
    var left := Expr(nodos, isNum, g, leftIdx);
    ExprRefs(nodos, isNum, g, leftIdx);
    ExprRefs(nodos, isNum, left.out.gen, rightIdx);
  }

  lemma {:induction false} BinaryFloatOpRefs(nodos: map<int, Nodo>, isNum: string -> bool, g: Gen, op: string, leftIdx: int, rightIdx: int)
    requires WellFormed(nodos)
    ensures ExprOk(g, BinaryFloatOp(nodos, isNum, g, op, leftIdx, rightIdx))
    decreases MaxRank(leftIdx, rightIdx), 2
  {
    OperandsRefs(nodos, isNum, g, leftIdx, rightIdx);
    var (left, right) := Operands(nodos, isNum, g, leftIdx, rightIdx);
    BinOpTailRefs(g, op, left, right);
  }

  lemma {:induction false} ModOpRefs(nodos: map<int, Nodo>, isNum: string -> bool, g: Gen, leftIdx: int, rightIdx: int)
    requires WellFormed(nodos)
    ensures ExprOk(g, ModOp(nodos, isNum, g, leftIdx, rightIdx))
    decreases MaxRank(leftIdx, rightIdx), 2
  {
    OperandsRefs(nodos, isNum, g, leftIdx, rightIdx);
    var (left, right) := Operands(nodos, isNum, g, leftIdx, rightIdx);
    ModTailRefs(g, left, right);
  }

  lemma {:induction false} ComparisonRefs(nodos: map<int, Nodo>, isNum: string -> bool, g: Gen, op: string, leftIdx: int, rightIdx: int)
    requires WellFormed(nodos)
    ensures ExprOk(g, Comparison(nodos, isNum, g, op, leftIdx, rightIdx))
    decreases MaxRank(leftIdx, rightIdx), 2
  {
    OperandsRefs(nodos, isNum, g, leftIdx, rightIdx);
    var (left, right) := Operands(nodos, isNum, g, leftIdx, rightIdx);
    CmpTailRefs(g, op, left, right);
  }

  // ---------------------------------------------------------------------
  // Statements
  // ---------------------------------------------------------------------

  /** The zero test loads only the condition's value. */
  lemma TestZeroRefs(cond: Name, target: Label, g: Gen, h: Gen)
    requires Ref(cond, g, h)
    ensures RefsIn(TestZero(cond, target), g, h)
  {
  }

  lemma IfHeadRefs(g: Gen, cond: Emitted)
    requires ExprOk(g, cond)
    ensures RefsOk(g, IfHead(g, cond))
  {
    var ls := IfLabels(cond);
    BannersNoOperands();
    PlainRefs(g, Lines(g, IfBanner));
    RefsThen(g, Lines(g, IfBanner), cond.out);
    RefWiden(cond.temp, g, cond.out.gen, g, ls.gen);
    TestZeroRefs(cond.temp, ls.first, g, ls.gen);
    RefsTail(g, Then(Lines(g, IfBanner), cond.out), Lines(ls.gen, TestZero(cond.temp, ls.first)));
  }

  lemma IfTailRefs(g: Gen, cond: Emitted, body: Out)
    requires ExprOk(g, cond) && RefsOk(IfLabels(cond).gen, body)
    ensures RefsOk(g, IfTail(g, cond, body))
  {
    var ls := IfLabels(cond);
    IfHeadRefs(g, cond);
    PlainRefs(body.gen, Lines(body.gen, [Mark(ls.first), Mark(ls.second)]));
    RefsThen(ls.gen, body, Lines(body.gen, [Mark(ls.first), Mark(ls.second)]));
    RefsThen(g, IfHead(g, cond), Then(body, Lines(body.gen, [Mark(ls.first), Mark(ls.second)])));
  }

  lemma IfElseTailRefs(g: Gen, cond: Emitted, tru: Out, fls: Out)
    requires ExprOk(g, cond) && RefsOk(IfLabels(cond).gen, tru) && RefsOk(tru.gen, fls)
    ensures RefsOk(g, IfElseTail(g, cond, tru, fls))
  {
    var ls := IfLabels(cond);
    var j := Lines(tru.gen, [Jump("jmp ", ls.second), Mark(ls.first)]);
    var e := Lines(fls.gen, [Mark(ls.second)]);
    IfHeadRefs(g, cond);
    PlainRefs(tru.gen, j);
    PlainRefs(fls.gen, e);
    RefsThen(ls.gen, tru, j);
    RefsThen(tru.gen, fls, e);
    RefsThen(ls.gen, Then(tru, j), Then(fls, e));
    RefsThen(g, IfHead(g, cond), Then(Then(tru, j), Then(fls, e)));
  }

  lemma WhileTailRefs(g: Gen, cond: Emitted, body: Out)
    requires ExprOk(WhileLabels(g).gen, cond) && RefsOk(cond.out.gen, body)
    ensures RefsOk(g, WhileTail(g, cond, body))
  {
    var ls := WhileLabels(g);
    var hd := Lines(ls.gen, WhileBanner + [Mark(ls.first)]);
    var tz := Lines(cond.out.gen, TestZero(cond.temp, ls.second));
    var bk := Lines(body.gen, [Jump("jmp ", ls.first), Mark(ls.second)]);
    BannersNoOperands();
    PlainRefs(g, hd);
    RefsThen(g, hd, cond.out);
    PlainRefs(body.gen, bk);
    RefsThen(cond.out.gen, body, bk);
    RefWiden(cond.temp, ls.gen, cond.out.gen, g, cond.out.gen);
    TestZeroRefs(cond.temp, ls.second, g, cond.out.gen);
    RefsWiden(tz.code, g, cond.out.gen, g, body.gen);
    RefsWiden(Then(body, bk).code, cond.out.gen, body.gen, g, body.gen);
    RefsTail(g, Then(hd, cond.out), Then(tz, Then(body, bk)));
  }

  lemma AssignTailRefs(g: Gen, target: string, e: Emitted)
    requires ExprOk(g, e)
    ensures RefsOk(g, AssignTail(g, target, e))
  {
    BannersNoOperands();
    PlainRefs(g, Lines(g, AssignBanner));
    RefsThen(g, Lines(g, AssignBanner), e.out);
    RefsTail(g, Then(Lines(g, AssignBanner), e.out), Lines(e.out.gen, [Mem("FLD  ", e.temp), Mem("FSTP ", Var(target))]));
  }

  /** Every statement refers only to what it allocated. */
  lemma {:induction false} StmtRefs(nodos: map<int, Nodo>, isNum: string -> bool, g: Gen, index: int)
    requires WellFormed(nodos)
    ensures RefsOk(g, Stmt(nodos, isNum, g, index))
    decreases Rank(index), 1
  {
    if index != 0 {
      var n := Lookup(nodos, index);
      if n != null {
        var l, r := IndexOf(n.izquierdo), IndexOf(n.derecho);
        if n.valor == ";" {
          BlockRefs(nodos, isNum, g, l, r);
        } else if n.valor == "if" {
          IfRefs(nodos, isNum, g, l, r);
        } else if n.valor == "while" {
          WhileRefs(nodos, isNum, g, l, r);
        } else if n.valor == "=" {
          AssignRefs(nodos, isNum, g, l, r);
        } else {
          ExprRefs(nodos, isNum, g, index);
        }
      }
    }
  }

  lemma {:induction false} BlockRefs(nodos: map<int, Nodo>, isNum: string -> bool, g: Gen, leftIdx: int, rightIdx: int)
    requires WellFormed(nodos)
    ensures RefsOk(g, BlockStmt(nodos, isNum, g, leftIdx, rightIdx))
    decreases MaxRank(leftIdx, rightIdx), 2
  {
    var left := Stmt(nodos, isNum, g, leftIdx);
    StmtRefs(nodos, isNum, g, leftIdx);
    StmtRefs(nodos, isNum, left.gen, rightIdx);
    RefsThen(g, left, Stmt(nodos, isNum, left.gen, rightIdx));
  }

  lemma {:induction false} IfRefs(nodos: map<int, Nodo>, isNum: string -> bool, g: Gen, condIdx: int, bodyIdx: int)
    requires WellFormed(nodos)
    ensures RefsOk(g, IfStmt(nodos, isNum, g, condIdx, bodyIdx))
    decreases MaxRank(condIdx, bodyIdx), 2
  {
    var cond := Expr(nodos, isNum, g, condIdx);
    ExprRefs(nodos, isNum, g, condIdx);
    var labels := IfLabels(cond).gen;
    var bodyNode := Lookup(nodos, bodyIdx);
    if bodyNode != null && bodyNode.valor == "cuerpo" {
      var tru := Stmt(nodos, isNum, labels, IndexOf(bodyNode.izquierdo));
      StmtRefs(nodos, isNum, labels, IndexOf(bodyNode.izquierdo));
      StmtRefs(nodos, isNum, tru.gen, IndexOf(bodyNode.derecho));
      IfElseTailRefs(g, cond, tru, Stmt(nodos, isNum, tru.gen, IndexOf(bodyNode.derecho)));
    } else {
      StmtRefs(nodos, isNum, labels, bodyIdx);
      IfTailRefs(g, cond, Stmt(nodos, isNum, labels, bodyIdx));
    }
  }

  lemma {:induction false} WhileRefs(nodos: map<int, Nodo>, isNum: string -> bool, g: Gen, condIdx: int, bodyIdx: int)
    requires WellFormed(nodos)
    ensures RefsOk(g, WhileStmt(nodos, isNum, g, condIdx, bodyIdx))
    decreases MaxRank(condIdx, bodyIdx), 2
  {
    var cond := Expr(nodos, isNum, WhileLabels(g).gen, condIdx);
    ExprRefs(nodos, isNum, WhileLabels(g).gen, condIdx);
    StmtRefs(nodos, isNum, cond.out.gen, bodyIdx);
    WhileTailRefs(g, cond, Stmt(nodos, isNum, cond.out.gen, bodyIdx));
  }

  lemma {:induction false} AssignRefs(nodos: map<int, Nodo>, isNum: string -> bool, g: Gen, leftIdx: int, rightIdx: int)
    requires WellFormed(nodos)
    ensures RefsOk(g, AssignStmt(nodos, isNum, g, leftIdx, rightIdx))
    decreases MaxRank(leftIdx, rightIdx), 2
  {
    var varNode := Lookup(nodos, leftIdx);
    if varNode == null {
      BannersNoOperands();
      PlainRefs(g, Lines(g, AssignBanner));
    } else {
      ExprRefs(nodos, isNum, g, rightIdx);
      AssignTailRefs(g, varNode.valor, Expr(nodos, isNum, g, rightIdx));
    }
  }
}

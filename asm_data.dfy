/** The data section: every routine declares only the `@tmp`, `@lit` and
    `@intSlot` names it allocated, each at most once, in increasing order,
    and records exactly the new temporary names in `declaredTemps`. */
module AsmData {
  import opened Nodos
  import opened Arena
  import opened AsmText
  import opened AsmSpec

  datatype DeclKind = TempKind | SlotKind

  /** A data line declaring a `@tmp`/`@lit` (TempKind) or an `@intSlot` (SlotKind). */
  predicate IsDecl(ln: Line, k: DeclKind) {
    ln.Decl? && match k
      case TempKind => ln.x.Tmp? || ln.x.Lit?
      case SlotKind => ln.x.IntSlot?
  }

  /** Declarations of kind `k` in `s` carry suffixes in (lo, hi], in strictly
      increasing order, hence each suffix at most once. */
  ghost predicate DeclsIn(s: seq<Line>, k: DeclKind, lo: int, hi: int) {
    && (forall ln | ln in s && IsDecl(ln, k) :: lo < ln.x.n <= hi)
    && (forall i, j | 0 <= i < j < |s| && IsDecl(s[i], k) && IsDecl(s[j], k) :: s[i].x.n < s[j].x.n)
  }

  /** The names `declaredTemps` records for the declarations in `s`. */
  ghost function DeclNames(s: seq<Line>): set<string> {
    set ln | ln in s && IsDecl(ln, TempKind) :: NameText(ln.x)
  }

  /** Every int slot numbered in (lo, hi] is declared in `data`. */
  ghost predicate SlotsDeclared(data: seq<Line>, lo: nat, hi: nat) {
    forall n: nat | lo < n <= hi :: Decl(IntSlot(n), "DD 0") in data
  }

  /** No counter went down, the data lines are `@tmp`/`@lit`/`@intSlot`
      declarations numbered by the counters in between, in increasing
      order, every int slot allocated is declared, and `declaredTemps`
      gained exactly the new temporary names. */
  ghost predicate DataOk(g: Gen, o: Out) {
    && Grows(g, o.gen)
    && (forall ln | ln in o.data :: IsDecl(ln, TempKind) || IsDecl(ln, SlotKind))
    && DeclsIn(o.data, TempKind, g.temps, o.gen.temps)
    && DeclsIn(o.data, SlotKind, g.slots, o.gen.slots)
    && SlotsDeclared(o.data, g.slots, o.gen.slots)
    && o.gen.declared == g.declared + DeclNames(o.data)
  }

  // ---------------------------------------------------------------------
  // Composition
  // ---------------------------------------------------------------------

  lemma {:induction false} DeclsConcat(s1: seq<Line>, s2: seq<Line>, k: DeclKind, lo: int, mid: int, hi: int)
    requires lo <= mid <= hi
    requires DeclsIn(s1, k, lo, mid) && DeclsIn(s2, k, mid, hi)
    ensures DeclsIn(s1 + s2, k, lo, hi)
  {
    var s := s1 + s2;
    forall i, j | 0 <= i < j < |s| && IsDecl(s[i], k) && IsDecl(s[j], k)
      ensures s[i].x.n < s[j].x.n
    {
      if j < |s1| {
        assert s[i] == s1[i] && s[j] == s1[j];
      } else if i >= |s1| {
        assert s[i] == s2[i - |s1|] && s[j] == s2[j - |s1|];
      } else {
        assert s[i] == s1[i] && s[i] in s1;
        assert s[j] == s2[j - |s1|] && s[j] in s2;
      }
    }
  }

  lemma DeclNamesConcat(s1: seq<Line>, s2: seq<Line>)
    ensures DeclNames(s1 + s2) == DeclNames(s1) + DeclNames(s2)
  {
  }

  /** Two routines run one after the other keep the data section sound. */
  lemma DataThen(g: Gen, a: Out, b: Out)
    requires DataOk(g, a) && DataOk(a.gen, b)
    ensures DataOk(g, Then(a, b))
  {
    DeclsConcat(a.data, b.data, TempKind, g.temps, a.gen.temps, b.gen.temps);
    DeclsConcat(a.data, b.data, SlotKind, g.slots, a.gen.slots, b.gen.slots);
    DeclNamesConcat(a.data, b.data);
  }

  /** Code appended without allocating anything. */
  lemma LinesData(g: Gen, h: Gen, code: seq<Line>)
    requires h == g.(labels := h.labels) && g.labels <= h.labels
    ensures DataOk(g, Lines(h, code))
  {
  }

  lemma NewTempData(g: Gen)
    ensures DataOk(g, NewTemp(g).out)
  {
    var e := NewTemp(g);
    if NameText(e.temp) !in g.declared {
      assert DeclNames(e.out.data) == {NameText(e.temp)};
    }
  }

  lemma DefineLiteralData(g: Gen, val: string)
    ensures DataOk(g, DefineLiteral(g, val).out)
  {
    var e := DefineLiteral(g, val);
    if NameText(e.temp) !in g.declared {
      assert DeclNames(e.out.data) == {NameText(e.temp)};
    }
  }

  lemma DefineIntSlotData(g: Gen)
    ensures DataOk(g, DefineIntSlot(g).out)
  {
    var e := DefineIntSlot(g);
    assert DeclNames(e.out.data) == {};
  }

  // ---------------------------------------------------------------------
  // Expressions
  // ---------------------------------------------------------------------

  lemma ExprZeroData(g: Gen, comment: string)
    ensures DataOk(g, ExprZero(g, comment).out)
  {
    NewTempData(g);
  }

  lemma LiteralOrVarData(isNum: string -> bool, g: Gen, val: string)
    ensures DataOk(g, LiteralOrVar(isNum, g, val).out)
  {
    var t := NewTemp(g);
    NewTempData(g);
    if isNum(val) {
      DefineLiteralData(t.out.gen, val);
      DataThen(g, t.out, DefineLiteral(t.out.gen, val).out);
    }
  }

  ghost predicate PairData(g: Gen, left: Emitted, right: Emitted) {
    DataOk(g, left.out) && DataOk(left.out.gen, right.out)
  }

  lemma BinOpTailData(g: Gen, op: string, left: Emitted, right: Emitted)
    requires PairData(g, left, right)
    ensures DataOk(g, BinOpTail(op, left, right).out)
  {
    var t := NewTemp(right.out.gen);
    NewTempData(right.out.gen);
    DataThen(g, left.out, right.out);
    DataThen(g, Then(left.out, right.out), t.out.(code := BinOpCode(op, left.temp, right.temp, t.temp)));
  }

  /** Three temporaries allocated one after the other. */
  lemma ThreeTempsData(g: Gen)
    ensures var a := NewTemp(g); var b := NewTemp(a.out.gen); var c := NewTemp(b.out.gen);
      DataOk(g, Then(a.out, Then(b.out, c.out)))
  {
    var a := NewTemp(g);
    var b := NewTemp(a.out.gen);
    var c := NewTemp(b.out.gen);
    NewTempData(g);
    NewTempData(a.out.gen);
    NewTempData(b.out.gen);
    DataThen(a.out.gen, b.out, c.out);
    DataThen(g, a.out, Then(b.out, c.out));
  }

  /** The six allocations of `genModOp` keep the data section sound. */
  lemma ModAllocateData(g: Gen)
    ensures DataOk(g, ModAllocate(g).out)
  {
    var div := NewTemp(g);
    var floor := NewTemp(div.out.gen);
    var slot := DefineIntSlot(floor.out.gen);
    var floorFloat := NewTemp(slot.out.gen);
    var mul := NewTemp(floorFloat.out.gen);
    var res := NewTemp(mul.out.gen);
    NewTempData(g);
    NewTempData(div.out.gen);
    DefineIntSlotData(floor.out.gen);
    ThreeTempsData(slot.out.gen);
    var last := Then(floorFloat.out, Then(mul.out, res.out));
    DataThen(floor.out.gen, slot.out, last);
    DataThen(div.out.gen, floor.out, Then(slot.out, last));
    DataThen(g, div.out, Then(floor.out, Then(slot.out, last)));
  }

  lemma ModTailData(g: Gen, left: Emitted, right: Emitted)
    requires PairData(g, left, right)
    ensures DataOk(g, ModTail(g, left, right).out)
  {
    var m := ModAllocate(right.out.gen);
    ModAllocateData(right.out.gen);
    LinesData(g, g, ModBanner);
    DataThen(g, left.out, right.out);
    DataThen(g, Lines(g, ModBanner), Then(left.out, right.out));
    DataThen(g, Then(Lines(g, ModBanner), Then(left.out, right.out)), m.out.(code := ModCode(left.temp, right.temp, m)));
  }

  lemma CmpTailData(g: Gen, op: string, left: Emitted, right: Emitted)
    requires PairData(g, left, right)
    ensures DataOk(g, CmpTail(op, left, right).out)
  {
    var t := NewTemp(right.out.gen);
    NewTempData(right.out.gen);
    DataThen(g, left.out, right.out);
    var ls := TwoLabels(t.out.gen, CmpTrue, CmpEnd);
    var tail := Out(ls.gen, t.out.data, CmpCode(op, left.temp, right.temp, t.temp, ls.first, ls.second));
    assert DataOk(right.out.gen, tail);
    DataThen(g, Then(left.out, right.out), tail);
  }

  /** Every expression keeps the data section sound. */
  lemma {:induction false} ExprData(nodos: map<int, Nodo>, isNum: string -> bool, g: Gen, index: int)
    requires WellFormed(nodos)
    ensures DataOk(g, Expr(nodos, isNum, g, index).out)
    decreases Rank(index), 0
  {
    if index == 0 {
      ExprZeroData(g, "; genExpr(0)->0.0");
    } else {
      var n := Lookup(nodos, index);
      if n == null {
        ExprZeroData(g, "; nodo null->0.0");
      } else {
        var l, r := IndexOf(n.izquierdo), IndexOf(n.derecho);
        if IsArith(n.valor) {
          BinaryFloatOpData(nodos, isNum, g, n.valor, l, r);
        } else if n.valor == "%" {
          ModOpData(nodos, isNum, g, l, r);
        } else if IsRelational(n.valor) {
          ComparisonData(nodos, isNum, g, n.valor, l, r);
        } else {
          LiteralOrVarData(isNum, g, n.valor);
        }
      }
    }
  }

  lemma {:induction false} OperandsData(nodos: map<int, Nodo>, isNum: string -> bool, g: Gen, leftIdx: int, rightIdx: int)
    requires WellFormed(nodos)
    ensures var (left, right) := Operands(nodos, isNum, g, leftIdx, rightIdx); PairData(g, left, right)
    decreases MaxRank(leftIdx, rightIdx), 1
  {
    var left := Expr(nodos, isNum, g, leftIdx);
    ExprData(nodos, isNum, g, leftIdx);
    ExprData(nodos, isNum, left.out.gen, rightIdx);
  }

  lemma {:induction false} BinaryFloatOpData(nodos: map<int, Nodo>, isNum: string -> bool, g: Gen, op: string, leftIdx: int, rightIdx: int)
    requires WellFormed(nodos)
    ensures DataOk(g, BinaryFloatOp(nodos, isNum, g, op, leftIdx, rightIdx).out)
    decreases MaxRank(leftIdx, rightIdx), 2
  {
    OperandsData(nodos, isNum, g, leftIdx, rightIdx);
    var (left, right) := Operands(nodos, isNum, g, leftIdx, rightIdx);
    BinOpTailData(g, op, left, right);
  }

  lemma {:induction false} ModOpData(nodos: map<int, Nodo>, isNum: string -> bool, g: Gen, leftIdx: int, rightIdx: int)
    requires WellFormed(nodos)
    ensures DataOk(g, ModOp(nodos, isNum, g, leftIdx, rightIdx).out)
    decreases MaxRank(leftIdx, rightIdx), 2
  {
    OperandsData(nodos, isNum, g, leftIdx, rightIdx);
    var (left, right) := Operands(nodos, isNum, g, leftIdx, rightIdx);
    ModTailData(g, left, right);
  }

  lemma {:induction false} ComparisonData(nodos: map<int, Nodo>, isNum: string -> bool, g: Gen, op: string, leftIdx: int, rightIdx: int)
    requires WellFormed(nodos)
    ensures DataOk(g, Comparison(nodos, isNum, g, op, leftIdx, rightIdx).out)
    decreases MaxRank(leftIdx, rightIdx), 2
  {
    OperandsData(nodos, isNum, g, leftIdx, rightIdx);
    var (left, right) := Operands(nodos, isNum, g, leftIdx, rightIdx);
    CmpTailData(g, op, left, right);
  }

  // ---------------------------------------------------------------------
  // Statements
  // ---------------------------------------------------------------------

  lemma IfHeadData(g: Gen, cond: Emitted)
    requires DataOk(g, cond.out)
    ensures DataOk(g, IfHead(g, cond))
  {
    var ls := IfLabels(cond);
    LinesData(g, g, IfBanner);
    DataThen(g, Lines(g, IfBanner), cond.out);
    LinesData(cond.out.gen, ls.gen, TestZero(cond.temp, ls.first));
    DataThen(g, Then(Lines(g, IfBanner), cond.out), Lines(ls.gen, TestZero(cond.temp, ls.first)));
  }

  lemma IfTailData(g: Gen, cond: Emitted, body: Out)
    requires DataOk(g, cond.out) && DataOk(IfLabels(cond).gen, body)
    ensures DataOk(g, IfTail(g, cond, body))
  {
    var ls := IfLabels(cond);
    IfHeadData(g, cond);
    LinesData(body.gen, body.gen, [Mark(ls.first), Mark(ls.second)]);
    DataThen(ls.gen, body, Lines(body.gen, [Mark(ls.first), Mark(ls.second)]));
    DataThen(g, IfHead(g, cond), Then(body, Lines(body.gen, [Mark(ls.first), Mark(ls.second)])));
  }

  lemma IfElseTailData(g: Gen, cond: Emitted, tru: Out, fls: Out)
    requires DataOk(g, cond.out) && DataOk(IfLabels(cond).gen, tru) && DataOk(tru.gen, fls)
    ensures DataOk(g, IfElseTail(g, cond, tru, fls))
  {
    var ls := IfLabels(cond);
    IfHeadData(g, cond);
    var mid := Lines(tru.gen, [Jump("jmp ", ls.second), Mark(ls.first)]);
    var last := Lines(fls.gen, [Mark(ls.second)]);
    LinesData(tru.gen, tru.gen, mid.code);
    LinesData(fls.gen, fls.gen, last.code);
    DataThen(ls.gen, tru, mid);
    DataThen(tru.gen, fls, last);
    DataThen(ls.gen, Then(tru, mid), Then(fls, last));
    DataThen(g, IfHead(g, cond), Then(Then(tru, mid), Then(fls, last)));
  }

  lemma WhileTailData(g: Gen, cond: Emitted, body: Out)
    requires DataOk(WhileLabels(g).gen, cond.out) && DataOk(cond.out.gen, body)
    ensures DataOk(g, WhileTail(g, cond, body))
  {
    var ls := WhileLabels(g);
    var head := Lines(ls.gen, WhileBanner + [Mark(ls.first)]);
    var test := Lines(cond.out.gen, TestZero(cond.temp, ls.second));
    var back := Lines(body.gen, [Jump("jmp ", ls.first), Mark(ls.second)]);
    LinesData(g, ls.gen, head.code);
    LinesData(cond.out.gen, cond.out.gen, test.code);
    LinesData(body.gen, body.gen, back.code);
    DataThen(g, head, cond.out);
    DataThen(cond.out.gen, body, back);
    DataThen(cond.out.gen, test, Then(body, back));
    DataThen(g, Then(head, cond.out), Then(test, Then(body, back)));
  }

  lemma AssignTailData(g: Gen, target: string, e: Emitted)
    requires DataOk(g, e.out)
    ensures DataOk(g, AssignTail(g, target, e))
  {
    var store := Lines(e.out.gen, [Mem("FLD  ", e.temp), Mem("FSTP ", Var(target))]);
    LinesData(g, g, AssignBanner);
    LinesData(e.out.gen, e.out.gen, store.code);
    DataThen(g, Lines(g, AssignBanner), e.out);
    DataThen(g, Then(Lines(g, AssignBanner), e.out), store);
  }

  /** Every statement keeps the data section sound. */
  lemma {:induction false} StmtData(nodos: map<int, Nodo>, isNum: string -> bool, g: Gen, index: int)
    requires WellFormed(nodos)
    ensures DataOk(g, Stmt(nodos, isNum, g, index))
    decreases Rank(index), 1
  {
    if index == 0 {
      LinesData(g, g, []);
    } else {
      var n := Lookup(nodos, index);
      if n == null {
        LinesData(g, g, []);
      } else {
        var l, r := IndexOf(n.izquierdo), IndexOf(n.derecho);
        if n.valor == ";" {
          BlockData(nodos, isNum, g, l, r);
        } else if n.valor == "if" {
          IfData(nodos, isNum, g, l, r);
        } else if n.valor == "while" {
          WhileData(nodos, isNum, g, l, r);
        } else if n.valor == "=" {
          AssignData(nodos, isNum, g, l, r);
        } else {
          ExprData(nodos, isNum, g, index);
        }
      }
    }
  }

  lemma {:induction false} BlockData(nodos: map<int, Nodo>, isNum: string -> bool, g: Gen, leftIdx: int, rightIdx: int)
    requires WellFormed(nodos)
    ensures DataOk(g, BlockStmt(nodos, isNum, g, leftIdx, rightIdx))
    decreases MaxRank(leftIdx, rightIdx), 2
  {
    var left := Stmt(nodos, isNum, g, leftIdx);
    StmtData(nodos, isNum, g, leftIdx);
    StmtData(nodos, isNum, left.gen, rightIdx);
    DataThen(g, left, Stmt(nodos, isNum, left.gen, rightIdx));
  }

  lemma {:induction false} IfData(nodos: map<int, Nodo>, isNum: string -> bool, g: Gen, condIdx: int, bodyIdx: int)
    requires WellFormed(nodos)
    ensures DataOk(g, IfStmt(nodos, isNum, g, condIdx, bodyIdx))
    decreases MaxRank(condIdx, bodyIdx), 2
  {
    var cond := Expr(nodos, isNum, g, condIdx);
    ExprData(nodos, isNum, g, condIdx);
    var labels := IfLabels(cond).gen;
    var bodyNode := Lookup(nodos, bodyIdx);
    if bodyNode != null && bodyNode.valor == "cuerpo" {
      var tru := Stmt(nodos, isNum, labels, IndexOf(bodyNode.izquierdo));
      StmtData(nodos, isNum, labels, IndexOf(bodyNode.izquierdo));
      StmtData(nodos, isNum, tru.gen, IndexOf(bodyNode.derecho));
      IfElseTailData(g, cond, tru, Stmt(nodos, isNum, tru.gen, IndexOf(bodyNode.derecho)));
    } else {
      StmtData(nodos, isNum, labels, bodyIdx);
      IfTailData(g, cond, Stmt(nodos, isNum, labels, bodyIdx));
    }
  }

  lemma {:induction false} WhileData(nodos: map<int, Nodo>, isNum: string -> bool, g: Gen, condIdx: int, bodyIdx: int)
    requires WellFormed(nodos)
    ensures DataOk(g, WhileStmt(nodos, isNum, g, condIdx, bodyIdx))
    decreases MaxRank(condIdx, bodyIdx), 2
  {
    var cond := Expr(nodos, isNum, WhileLabels(g).gen, condIdx);
    ExprData(nodos, isNum, WhileLabels(g).gen, condIdx);
    StmtData(nodos, isNum, cond.out.gen, bodyIdx);
    WhileTailData(g, cond, Stmt(nodos, isNum, cond.out.gen, bodyIdx));
  }

  lemma {:induction false} AssignData(nodos: map<int, Nodo>, isNum: string -> bool, g: Gen, leftIdx: int, rightIdx: int)
    requires WellFormed(nodos)
    ensures DataOk(g, AssignStmt(nodos, isNum, g, leftIdx, rightIdx))
    decreases MaxRank(leftIdx, rightIdx), 2
  {
    var varNode := Lookup(nodos, leftIdx);
    if varNode == null {
      LinesData(g, g, AssignBanner);
    } else {
      ExprData(nodos, isNum, g, rightIdx);
      AssignTailData(g, varNode.valor, Expr(nodos, isNum, g, rightIdx));
    }
  }
}

/** What the generated program as a whole satisfies, and the shape of each
    construct's block. */
module AsmProps {
  import opened Nodos
  import opened Arena
  import opened AsmText
  import opened AsmSpec
  import opened AsmData
  import opened AsmLabels
  import opened AsmRefs
  import opened SymbolTable
  import opened AsmProgram

  /** `x` has a declaration line in `data`. */
  ghost predicate DeclaredIn(x: Name, data: seq<Line>) {
    exists d | d in data :: d.Decl? && d.x == x
  }

  /** The data section names no storage twice. */
  ghost predicate NoDuplicateDecls(data: seq<Line>) {
    forall i, j | 0 <= i < j < |data| && data[i].Decl? && data[j].Decl? :: data[i].x != data[j].x
  }

  /** What makes the generated text assemble: every generated operand the
      code loads or stores is declared in the data section, nothing is
      declared twice, no label is placed twice and every jump lands on a
      placed label. */
  ghost predicate Assembles(data: seq<Line>, code: seq<Line>) {
    && (forall ln | ln in code && ln.Mem? && !ln.x.Var? :: DeclaredIn(ln.x, data))
    && NoDuplicateDecls(data)
    && DistinctMarks(code)
    && JumpsInto(code, code)
  }

  /** A referenced `@tmp` or `@lit` is declared: `declaredTemps` held no
      name before the run, so every name it holds after it was declared. */
  lemma TempDeclared(g: Gen, o: Out, x: Name)
    requires DataOk(g, o) && g.declared == {}
    requires (x.Tmp? || x.Lit?) && NameText(x) in o.gen.declared
    ensures DeclaredIn(x, o.data)
  {
    assert NameText(x) in DeclNames(o.data);
    var d :| d in o.data && IsDecl(d, TempKind) && NameText(d.x) == NameText(x);
    GeneratedNameTextInjective(d.x, x);
  }

  lemma SlotDeclared(g: Gen, o: Out, n: nat)
    requires DataOk(g, o) && g.slots < n <= o.gen.slots
    ensures DeclaredIn(IntSlot(n), o.data)
  {
    assert Decl(IntSlot(n), "DD 0") in o.data;
  }

  /** Declarations in strictly increasing order per kind name nothing twice. */
  lemma DataUnique(g: Gen, o: Out)
    requires DataOk(g, o)
    ensures NoDuplicateDecls(o.data)
  {
    forall i, j | 0 <= i < j < |o.data| && o.data[i].Decl? && o.data[j].Decl?
      ensures o.data[i].x != o.data[j].x
    {
      assert o.data[i] in o.data && o.data[j] in o.data;
    }
  }

  lemma OperandsDeclared(g: Gen, o: Out)
    requires DataOk(g, o) && RefsOk(g, o) && g.declared == {}
    ensures forall ln | ln in o.code && ln.Mem? && !ln.x.Var? :: DeclaredIn(ln.x, o.data)
  {
    forall ln | ln in o.code && ln.Mem? && !ln.x.Var?
      ensures DeclaredIn(ln.x, o.data)
    {
      assert Ref(ln.x, g, o.gen);
      if ln.x.IntSlot? {
        SlotDeclared(g, o, ln.x.n);
      } else {
        TempDeclared(g, o, ln.x);
      }
    }
  }

  /** The statement tree rooted at `root`, generated with `tempCount`,
      `labelCount` and `declaredTemps` reset and `intSlotCount` left at
      whatever an earlier run reached, yields a program that assembles. */
  lemma ProgramAssembles(nodos: map<int, Nodo>, isNum: string -> bool, slots: nat, root: int)
    requires WellFormed(nodos)
    ensures var o := Stmt(nodos, isNum, Gen(0, 0, slots, {}), root); Assembles(o.data, o.code)
  {
    var g := Gen(0, 0, slots, {});
    var o := Stmt(nodos, isNum, g, root);
    StmtData(nodos, isNum, g, root);
    StmtRefs(nodos, isNum, g, root);
    StmtLabels(nodos, isNum, g, root);
    OperandsDeclared(g, o);
    DataUnique(g, o);
  }

  /** Two data sections that declare nothing in common, one after the other. */
  lemma NoDuplicateDeclsConcat(a: seq<Line>, b: seq<Line>)
    requires NoDuplicateDecls(a) && NoDuplicateDecls(b)
    requires forall p, q | p in a && q in b && p.Decl? && q.Decl? :: p.x != q.x
    ensures NoDuplicateDecls(a + b)
  {
    var s := a + b;
    forall i, j | 0 <= i < j < |s| && s[i].Decl? && s[j].Decl?
      ensures s[i].x != s[j].x
    {
      if j < |a| {
        assert s[i] == a[i] && s[j] == a[j];
      } else if i >= |a| {
        assert s[i] == b[i - |a|] && s[j] == b[j - |a|];
      } else {
        assert s[i] == a[i] && s[i] in a;
        assert s[j] == b[j - |a|] && s[j] in b;
      }
    }
  }

  /** Text lines declare nothing. */
  lemma TextNoDecls(a: seq<Line>)
    requires forall ln | ln in a :: ln.Text?
    ensures NoDuplicateDecls(a)
  {
    assert forall i | 0 <= i < |a| :: a[i] in a;
  }

  /** The data lines `generateAssembler` writes before the statements':
      text, and one declaration per user variable, none repeated. */
  lemma PreambleDecls(order: seq<string>, table: map<string, SymbolEntry>)
    requires Enumerates(order, table)
    ensures var pre := DataHeader + (UserDecls(order, table) + [Blank]) + CompilerVars;
      && NoDuplicateDecls(pre)
      && forall ln | ln in pre :: ln.Text? || (ln.Decl? && ln.x.Var?)
  {
    PreambleNoDuplicates(order, table);
    PreambleForm(order, table);
  }

  lemma PreambleNoDuplicates(order: seq<string>, table: map<string, SymbolEntry>)
    requires Enumerates(order, table)
    ensures NoDuplicateDecls(DataHeader + (UserDecls(order, table) + [Blank]) + CompilerVars)
  {
    var u := UserDecls(order, table);
    UserDeclsForm(order, table);
    FramePlain();
    TextNoDecls(DataHeader);
    TextNoDecls([Blank]);
    TextNoDecls(CompilerVars);
    NoDuplicateDeclsConcat(u, [Blank]);
    NoDuplicateDeclsConcat(DataHeader, u + [Blank]);
    NoDuplicateDeclsConcat(DataHeader + (u + [Blank]), CompilerVars);
  }

  lemma PreambleForm(order: seq<string>, table: map<string, SymbolEntry>)
    requires Enumerates(order, table)
    ensures forall ln | ln in DataHeader + (UserDecls(order, table) + [Blank]) + CompilerVars ::
      ln.Text? || (ln.Decl? && ln.x.Var?)
  {
    UserDeclsForm(order, table);
    FramePlain();
  }

  /** Plain text before and after a piece of code places no label and
      adds no jump. */
  lemma MarksInFrame(hd: seq<Line>, c: seq<Line>, ft: seq<Line>)
    requires forall ln | ln in hd + ft :: ln.Text?
    requires DistinctMarks(c) && JumpsInto(c, c)
    ensures DistinctMarks(hd + c + ft) && JumpsInto(hd + c + ft, hd + c + ft)
  {
    var s := hd + c + ft;
    assert forall k | 0 <= k < |hd| :: s[k] == hd[k] && hd[k] in hd + ft;
    assert forall k | |hd| + |c| <= k < |s| :: s[k] == ft[k - |hd| - |c|] && ft[k - |hd| - |c|] in hd + ft;
    forall i, j | 0 <= i < j < |s| && s[i].Mark? && s[j].Mark?
      ensures s[i].l.n != s[j].l.n
    {
      assert s[i] == c[i - |hd|] && s[j] == c[j - |hd|];
    }
    forall ln | ln in s && ln.Jump?
      ensures Mark(ln.target) in s
    {
      assert ln !in hd + ft;
      assert ln in c;
    }
  }

  /** Every generated operand of the framed code is declared in the
      framed data. */
  lemma OperandsDeclaredInFrame(pre: seq<Line>, data: seq<Line>, hd: seq<Line>, code: seq<Line>, ft: seq<Line>)
    requires forall ln | ln in hd + ft :: ln.Text?
    requires forall ln | ln in code && ln.Mem? && !ln.x.Var? :: DeclaredIn(ln.x, data)
    ensures forall ln | ln in hd + code + ft && ln.Mem? && !ln.x.Var? :: DeclaredIn(ln.x, pre + data)
  {
    forall ln | ln in hd + code + ft && ln.Mem? && !ln.x.Var?
      ensures DeclaredIn(ln.x, pre + data)
    {
      assert ln !in hd + ft;
      var d :| d in data && d.Decl? && d.x == ln.x;
      assert d in pre + data;
    }
  }

  /** What `generateAssembler` writes assembles: the statement code of the
      root with the counters reset, framed by the fixed headers, the user
      variables, the compiler variables and the footer. */
  lemma GeneratedFileAssembles(nodos: map<int, Nodo>, isNum: string -> bool, slots: nat, root: int,
                               order: seq<string>, table: map<string, SymbolEntry>)
    requires WellFormed(nodos) && Enumerates(order, table)
    ensures var o := Stmt(nodos, isNum, Gen(0, 0, slots, {}), root);
      Assembles(ProgramData(order, table, o), ProgramCode(o))
  {
    var g := Gen(0, 0, slots, {});
    var o := Stmt(nodos, isNum, g, root);
    ProgramAssembles(nodos, isNum, slots, root);
    StmtData(nodos, isNum, g, root);
    PreambleDecls(order, table);
    FramePlain();
    var pre := DataHeader + (UserDecls(order, table) + [Blank]) + CompilerVars;
    NoDuplicateDeclsConcat(pre, o.data);
    MarksInFrame(CodeHeader, o.code, CodeFooter);
    OperandsDeclaredInFrame(pre, o.data, CodeHeader, o.code, CodeFooter);
  }

  // ---------------------------------------------------------------------
  // Expressions
  // ---------------------------------------------------------------------

  /** The left operand's temporaries are numbered below the right
      operand's, and the node's result above both. */
  lemma OperandOrder(nodos: map<int, Nodo>, isNum: string -> bool, g: Gen, leftIdx: int, rightIdx: int)
    requires WellFormed(nodos)
    ensures var (left, right) := Operands(nodos, isNum, g, leftIdx, rightIdx);
      && left.temp.Tmp? && right.temp.Tmp?
      && g.temps < left.temp.n <= left.out.gen.temps < right.temp.n <= right.out.gen.temps
  {
    OperandsRefs(nodos, isNum, g, leftIdx, rightIdx);
  }

  lemma BinaryOpOrder(nodos: map<int, Nodo>, isNum: string -> bool, g: Gen, op: string, leftIdx: int, rightIdx: int)
    requires WellFormed(nodos)
    ensures var (left, right) := Operands(nodos, isNum, g, leftIdx, rightIdx);
      var e := BinaryFloatOp(nodos, isNum, g, op, leftIdx, rightIdx);
      && left.temp.Tmp? && right.temp.Tmp? && e.temp == Tmp(e.out.gen.temps)
      && left.temp.n < right.temp.n <= right.out.gen.temps < e.temp.n
  {
    OperandOrder(nodos, isNum, g, leftIdx, rightIdx);
  }

  lemma ComparisonOrder(nodos: map<int, Nodo>, isNum: string -> bool, g: Gen, op: string, leftIdx: int, rightIdx: int)
    requires WellFormed(nodos)
    ensures var (left, right) := Operands(nodos, isNum, g, leftIdx, rightIdx);
      var e := Comparison(nodos, isNum, g, op, leftIdx, rightIdx);
      && left.temp.Tmp? && right.temp.Tmp? && e.temp == Tmp(e.out.gen.temps)
      && left.temp.n < right.temp.n <= right.out.gen.temps < e.temp.n
  {
    OperandOrder(nodos, isNum, g, leftIdx, rightIdx);
  }

  /** `genModOp` allocates, after both operands and in this order,
      resultDiv, tempFloor, one int slot, floorFloat, mulTemp and
      resultMod, and hands back resultMod (the operands' own order is
      `OperandOrder`). */
  lemma ModAllocation(nodos: map<int, Nodo>, isNum: string -> bool, g: Gen, leftIdx: int, rightIdx: int)
    requires WellFormed(nodos)
    ensures var right := Operands(nodos, isNum, g, leftIdx, rightIdx).1;
      var m := ModAllocate(right.out.gen);
      var e := ModOp(nodos, isNum, g, leftIdx, rightIdx);
      && right.out.gen.temps < m.div.n < m.floor.n < m.floorFloat.n < m.mul.n < m.res.n == e.out.gen.temps
      && m.slot == IntSlot(right.out.gen.slots + 1) && e.out.gen.slots == right.out.gen.slots + 1
      && e.temp == m.res
  {
    ModOpUnfold(nodos, isNum, g, leftIdx, rightIdx);
  }

  /** Nothing in a modulo node's code, its operands included, loads or
      stores tempFloor. */
  lemma ModFloorUnused(nodos: map<int, Nodo>, isNum: string -> bool, g: Gen, leftIdx: int, rightIdx: int)
    requires WellFormed(nodos)
    ensures var (left, right) := Operands(nodos, isNum, g, leftIdx, rightIdx);
      Avoids(ModOp(nodos, isNum, g, leftIdx, rightIdx).out.code, ModAllocate(right.out.gen).floor)
  {
    OperandOrder(nodos, isNum, g, leftIdx, rightIdx);
    OperandsRefs(nodos, isNum, g, leftIdx, rightIdx);
    var (left, right) := Operands(nodos, isNum, g, leftIdx, rightIdx);
    PairResults(g, left, right, right.out.gen);
    FloorUnused(g, left, right, ModAllocate(right.out.gen));
  }

  /** No line of `code` loads or stores `x`. */
  ghost predicate Avoids(code: seq<Line>, x: Name) {
    forall ln | ln in code && ln.Mem? :: ln.x != x
  }

  /** Code that refers only to names allocated up to `h` avoids any
      temporary taken after `h`. */
  lemma RefsAvoid(code: seq<Line>, g: Gen, h: Gen, x: Name)
    requires RefsIn(code, g, h) && x.Tmp? && x.n > h.temps
    ensures Avoids(code, x)
  {
  }

  lemma UsesAvoid(code: seq<Line>, xs: set<Name>, x: Name)
    requires UsesOnly(code, xs) && x !in xs && !x.Var?
    ensures Avoids(code, x)
  {
  }

  /** The `genModOp` block loads and stores every one of its names except
      tempFloor. */
  lemma ModCodeAvoidsFloor(left: Name, right: Name, m: ModAlloc)
    requires !m.floor.Var? && m.floor != left && m.floor != right
    requires m.floor != m.div && m.floor != m.slot && m.floor != m.floorFloat && m.floor != m.mul && m.floor != m.res
    ensures Avoids(ModCode(left, right, m), m.floor)
  {
    ModCodePlain(left, right, m);
    UsesAvoid(ModCode(left, right, m), {left, right, m.div, m.slot, m.floorFloat, m.mul, m.res}, m.floor);
  }

  lemma AvoidsConcat(a: seq<Line>, b: seq<Line>, c: seq<Line>, x: Name)
    requires Avoids(a, x) && Avoids(b, x) && Avoids(c, x)
    ensures Avoids((a + b) + c, x)
  {
  }

  lemma FloorUnused(g: Gen, left: Emitted, right: Emitted, m: ModAlloc)
    requires RefsOk(g, Then(left.out, right.out)) && m == ModAllocate(right.out.gen)
    requires left.temp.Tmp? && right.temp.Tmp?
    requires left.temp.n <= right.out.gen.temps && right.temp.n <= right.out.gen.temps
    ensures Avoids(ModTail(g, left, right).out.code, m.floor)
  {
    var lr := Then(left.out, right.out).code;
    ModCodeAvoidsFloor(left.temp, right.temp, m);
    RefsAvoid(lr, g, right.out.gen, m.floor);
    BannersNoOperands();
    AvoidsConcat(ModBanner, lr, ModCode(left.temp, right.temp, m), m.floor);
  }

  /** The last lines of `code` discard the top of the FPU stack, push zero
      and store it into `res`, and no other line mentions `res`. */
  ghost predicate StoresZeroLast(code: seq<Line>, res: Name) {
    && |code| >= 4
    && code[|code| - 4] == Text("\tFSTP ST0") && code[|code| - 3] == Text("\tFLDZ")
    && code[|code| - 2] == Mem("FSTP ", res)
    && forall i | 0 <= i < |code| && code[i].Mem? && code[i].x == res :: i == |code| - 2
  }

  /** Within the comparison block, the result is mentioned once. */
  lemma CmpCodeStore(op: string, left: Name, right: Name, res: Name, isTrue: Label, end: Label)
    requires res != left && res != right
    ensures StoresZeroLast(CmpCode(op, left, right, res, isTrue, end), res)
  {
    var hd, j, tl := CmpHead(op, left, right), CmpJump(op, end), CmpEndCode(isTrue, end, res);
    var c := CmpCode(op, left, right, res, isTrue, end);
    assert c == hd + j + tl;
    assert forall k | 0 <= k < |hd| :: c[k] == hd[k];
    assert forall k | |hd| <= k < |hd| + |j| :: c[k] == j[k - |hd|] && c[k] in j;
    assert forall k | |hd| + |j| <= k < |c| :: c[k] == tl[k - |hd| - |j|];
  }

  /** Code that never mentions `res`, followed by a block that stores zero
      into it last. */
  lemma StoresZeroAfter(lr: seq<Line>, c: seq<Line>, res: Name)
    requires Avoids(lr, res) && StoresZeroLast(c, res)
    ensures StoresZeroLast(lr + c, res)
  {
    var code := lr + c;
    assert forall i | 0 <= i < |lr| :: code[i] == lr[i] && lr[i] in lr;
    assert forall i | |lr| <= i < |code| :: code[i] == c[i - |lr|];
  }

  lemma CmpTailStoresZero(g: Gen, op: string, left: Emitted, right: Emitted)
    requires RefsOk(g, Then(left.out, right.out)) && left.temp.Tmp? && right.temp.Tmp?
    requires left.temp.n <= right.out.gen.temps && right.temp.n <= right.out.gen.temps
    ensures StoresZeroLast(CmpTail(op, left, right).out.code, CmpTail(op, left, right).temp)
  {
    var t := NewTemp(right.out.gen);
    var isTrue := NewLabel(t.out.gen, CmpTrue);
    var end := NewLabel(isTrue.gen, CmpEnd);
    CmpCodeStore(op, left.temp, right.temp, t.temp, isTrue.name, end.name);
    RefsAvoid(Then(left.out, right.out).code, g, right.out.gen, t.temp);
    StoresZeroAfter(Then(left.out, right.out).code, CmpCode(op, left.temp, right.temp, t.temp, isTrue.name, end.name), t.temp);
  }

  /** A comparison always stores zero into its result, after discarding the
      top of the FPU stack, whichever jump its operator selects; nothing
      else in its code mentions the result. */
  lemma CmpStoresZero(nodos: map<int, Nodo>, isNum: string -> bool, g: Gen, op: string, leftIdx: int, rightIdx: int)
    requires WellFormed(nodos)
    ensures var e := Comparison(nodos, isNum, g, op, leftIdx, rightIdx); StoresZeroLast(e.out.code, e.temp)
  {
    OperandOrder(nodos, isNum, g, leftIdx, rightIdx);
    OperandsRefs(nodos, isNum, g, leftIdx, rightIdx);
    var (left, right) := Operands(nodos, isNum, g, leftIdx, rightIdx);
    PairResults(g, left, right, right.out.gen);
    CmpTailStoresZero(g, op, left, right);
  }
}

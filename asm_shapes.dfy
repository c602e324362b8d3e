/** The layout of the blocks `genIf` and `genWhile` append: where each
    label is placed, where the condition and the body go, and which label
    numbers the two `newLabel` calls hand out. */
module AsmShapes {
  import opened Nodos
  import opened Arena
  import opened AsmText
  import opened AsmSpec
  import opened AsmLabels

  /** Five pieces appended through `Then`, flattened. */
  lemma Flatten5(a: seq<Line>, b: seq<Line>, c: seq<Line>, d: seq<Line>, e: seq<Line>)
    ensures (a + b + c) + (d + e) == a + b + c + d + e
  {
  }

  lemma Flatten7(a: seq<Line>, b: seq<Line>, c: seq<Line>, d: seq<Line>, e: seq<Line>, f: seq<Line>, h: seq<Line>)
    ensures (a + b + c) + ((d + e) + (f + h)) == a + b + c + d + e + f + h
  {
  }

  lemma Flatten6(a: seq<Line>, b: seq<Line>, c: seq<Line>, d: seq<Line>, e: seq<Line>)
    ensures (a + b) + (c + (d + e)) == a + b + c + d + e
  {
  }

  /** The code of `o` places only labels numbered between the counter `o`
      started from and the counter it ends with. */
  lemma MarkOutside(g: Gen, o: Out, l: Label)
    requires LabelsOk(g, o) && (l.n <= g.labels || o.gen.labels < l.n)
    ensures Mark(l) !in o.code
  {
  }

  /** `genIf` without a `cuerpo` node: banner, condition, the test jumping to
      ELSE, the body, then `ELSE:` immediately followed by `END_IF:`. The two
      labels are numbered consecutively above every label the condition used,
      and neither the condition nor the body places them. */
  lemma IfShape(nodos: map<int, Nodo>, isNum: string -> bool, g: Gen, condIdx: int, bodyIdx: int)
    requires WellFormed(nodos)
    requires var b := Lookup(nodos, bodyIdx); !(b != null && b.valor == "cuerpo")
    ensures var cond := Expr(nodos, isNum, g, condIdx);
      var ls := IfLabels(cond);
      var body := Stmt(nodos, isNum, ls.gen, bodyIdx);
      && g.labels <= cond.out.gen.labels < ls.first.n
      && ls.first == Label(Else, ls.first.n) && ls.second == Label(EndIf, ls.first.n + 1)
      && IfStmt(nodos, isNum, g, condIdx, bodyIdx).code
           == IfBanner + cond.out.code + TestZero(cond.temp, ls.first) + body.code + [Mark(ls.first), Mark(ls.second)]
      && Mark(ls.first) !in cond.out.code + body.code && Mark(ls.second) !in cond.out.code + body.code
  {
    var cond := Expr(nodos, isNum, g, condIdx);
    var ls := IfLabels(cond);
    var body := Stmt(nodos, isNum, ls.gen, bodyIdx);
    IfUnfold(nodos, isNum, g, condIdx, bodyIdx);
    ExprLabels(nodos, isNum, g, condIdx);
    StmtLabels(nodos, isNum, ls.gen, bodyIdx);
    MarkOutside(g, cond.out, ls.first);
    MarkOutside(g, cond.out, ls.second);
    MarkOutside(ls.gen, body, ls.first);
    MarkOutside(ls.gen, body, ls.second);
    Flatten5(IfBanner, cond.out.code, TestZero(cond.temp, ls.first), body.code, [Mark(ls.first), Mark(ls.second)]);
  }

  /** `genIf` with a `cuerpo` node: banner, condition, the test jumping to
      ELSE, the true part, `jmp END_IF`, `ELSE:`, the false part and
      `END_IF:` last. The labels are numbered as without `cuerpo`, and
      neither the condition nor either part places them. */
  lemma IfElseShape(nodos: map<int, Nodo>, isNum: string -> bool, g: Gen, condIdx: int, bodyIdx: int)
    requires WellFormed(nodos)
    requires var b := Lookup(nodos, bodyIdx); b != null && b.valor == "cuerpo"
    ensures var cond := Expr(nodos, isNum, g, condIdx);
      var ls := IfLabels(cond);
      var b := Lookup(nodos, bodyIdx);
      var tru := Stmt(nodos, isNum, ls.gen, IndexOf(b.izquierdo));
      var fls := Stmt(nodos, isNum, tru.gen, IndexOf(b.derecho));
      && g.labels <= cond.out.gen.labels < ls.first.n
      && ls.first == Label(Else, ls.first.n) && ls.second == Label(EndIf, ls.first.n + 1)
      && IfStmt(nodos, isNum, g, condIdx, bodyIdx).code
           == IfBanner + cond.out.code + TestZero(cond.temp, ls.first) + tru.code
              + [Jump("jmp ", ls.second), Mark(ls.first)] + fls.code + [Mark(ls.second)]
      && Mark(ls.first) !in cond.out.code + tru.code + fls.code
      && Mark(ls.second) !in cond.out.code + tru.code + fls.code
  {
    var cond := Expr(nodos, isNum, g, condIdx);
    var ls := IfLabels(cond);
    var b := Lookup(nodos, bodyIdx);
    var tru := Stmt(nodos, isNum, ls.gen, IndexOf(b.izquierdo));
    var fls := Stmt(nodos, isNum, tru.gen, IndexOf(b.derecho));
    IfUnfold(nodos, isNum, g, condIdx, bodyIdx);
    ExprLabels(nodos, isNum, g, condIdx);
    StmtLabels(nodos, isNum, ls.gen, IndexOf(b.izquierdo));
    StmtLabels(nodos, isNum, tru.gen, IndexOf(b.derecho));
    MarkOutside(g, cond.out, ls.first);
    MarkOutside(g, cond.out, ls.second);
    MarkOutside(ls.gen, tru, ls.first);
    MarkOutside(ls.gen, tru, ls.second);
    MarkOutside(tru.gen, fls, ls.first);
    MarkOutside(tru.gen, fls, ls.second);
    Flatten7(IfBanner, cond.out.code, TestZero(cond.temp, ls.first), tru.code,
      [Jump("jmp ", ls.second), Mark(ls.first)], fls.code, [Mark(ls.second)]);
  }

  /** `genWhile`: banner and `WHILE:` first, the condition once (allocated
      after the two labels), the test jumping to ENDWHILE, the body, the
      jump back and `ENDWHILE:` last. The labels are the next two numbers
      and neither the condition nor the body places them. */
  lemma WhileShape(nodos: map<int, Nodo>, isNum: string -> bool, g: Gen, condIdx: int, bodyIdx: int)
    requires WellFormed(nodos)
    ensures var ls := WhileLabels(g);
      var cond := Expr(nodos, isNum, ls.gen, condIdx);
      var body := Stmt(nodos, isNum, cond.out.gen, bodyIdx);
      && ls.first == Label(While, g.labels + 1) && ls.second == Label(EndWhile, g.labels + 2)
      && WhileStmt(nodos, isNum, g, condIdx, bodyIdx).code
           == WhileBanner + [Mark(ls.first)] + cond.out.code + TestZero(cond.temp, ls.second)
              + body.code + [Jump("jmp ", ls.first), Mark(ls.second)]
      && Mark(ls.first) !in cond.out.code + body.code && Mark(ls.second) !in cond.out.code + body.code
  {
    var ls := WhileLabels(g);
    var cond := Expr(nodos, isNum, ls.gen, condIdx);
    var body := Stmt(nodos, isNum, cond.out.gen, bodyIdx);
    ExprLabels(nodos, isNum, ls.gen, condIdx);
    StmtLabels(nodos, isNum, cond.out.gen, bodyIdx);
    MarkOutside(ls.gen, cond.out, ls.first);
    MarkOutside(ls.gen, cond.out, ls.second);
    MarkOutside(cond.out.gen, body, ls.first);
    MarkOutside(cond.out.gen, body, ls.second);
    Flatten6(WhileBanner + [Mark(ls.first)], cond.out.code, TestZero(cond.temp, ls.second),
      body.code, [Jump("jmp ", ls.first), Mark(ls.second)]);
  }
}

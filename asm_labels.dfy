/** Labels: every routine places only labels it allocated itself, each at
    most once, and every jump it emits lands on a label it placed. */
module AsmLabels {
  import opened Nodos
  import opened Arena
  import opened AsmText
  import opened AsmSpec

  /** Every label placed in `code` is numbered in (lo, hi]. */
  ghost predicate MarksIn(code: seq<Line>, lo: int, hi: int) {
    forall ln | ln in code && ln.Mark? :: lo < ln.l.n <= hi
  }

  /** No two labels placed in `code` share a number (labels of every
      family are numbered by the one `labelCount`, so none is placed twice). */
  ghost predicate DistinctMarks(code: seq<Line>) {
    forall i, j | 0 <= i < j < |code| && code[i].Mark? && code[j].Mark? :: code[i].l.n != code[j].l.n
  }

  /** Every jump in `code` lands on a label placed in `whole`. */
  ghost predicate JumpsInto(code: seq<Line>, whole: seq<Line>) {
    forall ln | ln in code && ln.Jump? :: Mark(ln.target) in whole
  }

  /** The labels of a routine's code: allocated by it, placed once, and
      the only targets of its jumps. */
  ghost predicate LabelsOk(g: Gen, o: Out) {
    && g.labels <= o.gen.labels
    && MarksIn(o.code, g.labels, o.gen.labels)
    && DistinctMarks(o.code)
    && JumpsInto(o.code, o.code)
  }

  // ---------------------------------------------------------------------
  // Composition
  // ---------------------------------------------------------------------

  /** No label placed in `a` shares its number with one placed in `b`. */
  ghost predicate Apart(a: seq<Line>, b: seq<Line>) {
    forall x, y | x in a && y in b && x.Mark? && y.Mark? :: x.l.n != y.l.n
  }

  lemma DistinctConcat(a: seq<Line>, b: seq<Line>)
    requires DistinctMarks(a) && DistinctMarks(b) && Apart(a, b)
    ensures DistinctMarks(a + b)
  {
    var s := a + b;
    forall i, j | 0 <= i < j < |s| && s[i].Mark? && s[j].Mark?
      ensures s[i].l.n != s[j].l.n
    {
      if j < |a| {
        assert s[i] == a[i] && s[j] == a[j];
      } else if i >= |a| {
        assert s[i] == b[i - |a|] && s[j] == b[j - |a|];
      } else {
        assert s[i] == a[i] && s[i] in a;
        assert s[j] == b[j - |a|] && s[j] in b;
      }
    }
  }

  /** Blocks whose labels come from disjoint ranges, in either order. */
  lemma ApartByRanges(a: seq<Line>, b: seq<Line>, lo1: int, hi1: int, lo2: int, hi2: int)
    requires MarksIn(a, lo1, hi1) && MarksIn(b, lo2, hi2)
    requires hi1 <= lo2 || hi2 <= lo1
    ensures Apart(a, b)
  {
  }

  lemma LabelsThen(g: Gen, a: Out, b: Out)
    requires LabelsOk(g, a) && LabelsOk(a.gen, b)
    ensures LabelsOk(g, Then(a, b))
  {
    ApartByRanges(a.code, b.code, g.labels, a.gen.labels, a.gen.labels, b.gen.labels);
    DistinctConcat(a.code, b.code);
  }

  /** Code with no label and no jump. */
  lemma PlainLabels(g: Gen, o: Out)
    requires NoLabels(o.code) && g.labels <= o.gen.labels
    ensures LabelsOk(g, o)
  {
  }

  lemma BannersPlain()
    ensures NoLabels(ModBanner) && NoLabels(IfBanner) && NoLabels(WhileBanner) && NoLabels(AssignBanner)
  {
  }

  /** The zero test places no label and jumps only to `target`. */
  lemma TestZeroJumps(cond: Name, target: Label)
    ensures forall ln | ln in TestZero(cond, target) :: !ln.Mark? && (ln.Jump? ==> ln.target == target)
  {
  }

  // ---------------------------------------------------------------------
  // Expressions
  // ---------------------------------------------------------------------

  lemma ExprZeroLabels(g: Gen, comment: string)
    ensures LabelsOk(g, ExprZero(g, comment).out)
  {
    PlainLabels(g, ExprZero(g, comment).out);
  }

  lemma LiteralOrVarLabels(isNum: string -> bool, g: Gen, val: string)
    ensures LabelsOk(g, LiteralOrVar(isNum, g, val).out)
  {
    var t := NewTemp(g);
    if isNum(val) {
      var lit := DefineLiteral(t.out.gen, val);
      LoadCodePlain("; cargar literal " + val, lit.temp, t.temp);
    } else {
      LoadCodePlain("; cargar variable " + val, Var(val), t.temp);
    }
    PlainLabels(g, LiteralOrVar(isNum, g, val).out);
  }

  ghost predicate PairLabels(g: Gen, left: Emitted, right: Emitted) {
    LabelsOk(g, left.out) && LabelsOk(left.out.gen, right.out)
  }

  lemma BinOpTailLabels(g: Gen, op: string, left: Emitted, right: Emitted)
    requires PairLabels(g, left, right)
    ensures LabelsOk(g, BinOpTail(op, left, right).out)
  {
    var t := NewTemp(right.out.gen);
    var tail := t.out.(code := BinOpCode(op, left.temp, right.temp, t.temp));
    BinOpCodePlain(op, left.temp, right.temp, t.temp);
    PlainLabels(right.out.gen, tail);
    LabelsThen(g, left.out, right.out);
    LabelsThen(g, Then(left.out, right.out), tail);
  }

  lemma ModTailLabels(g: Gen, left: Emitted, right: Emitted)
    requires PairLabels(g, left, right)
    ensures LabelsOk(g, ModTail(g, left, right).out)
  {
    var m := ModAllocate(right.out.gen);
    var tail := m.out.(code := ModCode(left.temp, right.temp, m));
    ModCodePlain(left.temp, right.temp, m);
    PlainLabels(right.out.gen, tail);
    BannersPlain();
    PlainLabels(g, Lines(g, ModBanner));
    LabelsThen(g, left.out, right.out);
    LabelsThen(g, Lines(g, ModBanner), Then(left.out, right.out));
    LabelsThen(g, Then(Lines(g, ModBanner), Then(left.out, right.out)), tail);
  }

  /** The comparison block places CMPTRUE and CMPEND once each and jumps
      only to CMPEND. */
  lemma CmpHeadPlain(op: string, left: Name, right: Name)
    ensures NoLabels(CmpHead(op, left, right))
  {
  }

  lemma CmpJumpTarget(op: string, end: Label)
    ensures forall ln | ln in CmpJump(op, end) :: !ln.Mark? && (ln.Jump? ==> ln.target == end)
  {
  }

  lemma CmpEndLabels(res: Name, lo: nat)
    ensures var code := CmpEndCode(Label(CmpTrue, lo + 1), Label(CmpEnd, lo + 2), res);
      && MarksIn(code, lo, lo + 2) && DistinctMarks(code) && Mark(Label(CmpEnd, lo + 2)) in code
      && forall ln | ln in code && ln.Jump? :: ln.target == Label(CmpEnd, lo + 2)
  {
    var code := CmpEndCode(Label(CmpTrue, lo + 1), Label(CmpEnd, lo + 2), res);
    assert code[3] == Mark(Label(CmpEnd, lo + 2));
  }

  /** The layout of `genComparison`, on any blocks: a head with no label,
      a jump to `end`, and a tail that places `end`. */
  lemma CmpLayoutLabels(hd: seq<Line>, j: seq<Line>, tl: seq<Line>, end: Label, lo: int, hi: int)
    requires NoLabels(hd) && lo <= hi
    requires forall ln | ln in j :: !ln.Mark? && (ln.Jump? ==> ln.target == end)
    requires MarksIn(tl, lo, hi) && DistinctMarks(tl) && Mark(end) in tl
    requires forall ln | ln in tl && ln.Jump? :: ln.target == end
    ensures var code := (hd + j) + tl;
      MarksIn(code, lo, hi) && DistinctMarks(code) && JumpsInto(code, code)
  {
    ApartByRanges(hd, j, lo, lo, lo, lo);
    DistinctConcat(hd, j);
    ApartByRanges(hd + j, tl, lo, lo, lo, hi);
    DistinctConcat(hd + j, tl);
  }

  lemma CmpCodeLabels(g: Gen, h: Gen, data: seq<Line>, op: string, left: Name, right: Name, res: Name, isTrue: Label, end: Label)
    requires isTrue == Label(CmpTrue, g.labels + 1) && end == Label(CmpEnd, g.labels + 2) && h.labels == g.labels + 2
    ensures LabelsOk(g, Out(h, data, CmpCode(op, left, right, res, isTrue, end)))
  {
    CmpHeadPlain(op, left, right);
    CmpJumpTarget(op, end);
    CmpEndLabels(res, g.labels);
    CmpLayoutLabels(CmpHead(op, left, right), CmpJump(op, end), CmpEndCode(isTrue, end, res), end, g.labels, h.labels);
  }

  /** Two operands followed by a tail that allocated its own labels. */
  lemma PairThenLabels(g: Gen, left: Emitted, right: Emitted, tail: Out)
    requires PairLabels(g, left, right) && LabelsOk(right.out.gen, tail)
    ensures LabelsOk(g, Then(Then(left.out, right.out), tail))
  {
    LabelsThen(g, left.out, right.out);
    LabelsThen(g, Then(left.out, right.out), tail);
  }

  lemma CmpTailLabels(g: Gen, op: string, left: Emitted, right: Emitted)
    requires PairLabels(g, left, right)
    ensures LabelsOk(g, CmpTail(op, left, right).out)
  {
    var t := NewTemp(right.out.gen);
    var isTrue := NewLabel(t.out.gen, CmpTrue);
    var end := NewLabel(isTrue.gen, CmpEnd);
    CmpCodeLabels(right.out.gen, end.gen, t.out.data, op, left.temp, right.temp, t.temp, isTrue.name, end.name);
    PairThenLabels(g, left, right, Out(end.gen, t.out.data, CmpCode(op, left.temp, right.temp, t.temp, isTrue.name, end.name)));
  }

  /** Every expression's labels are its own, placed once, and its jumps
      stay inside it. */
  lemma {:induction false} ExprLabels(nodos: map<int, Nodo>, isNum: string -> bool, g: Gen, index: int)
    requires WellFormed(nodos)
    ensures LabelsOk(g, Expr(nodos, isNum, g, index).out)
    decreases Rank(index), 0
  {
    if index == 0 {
      ExprZeroLabels(g, "; genExpr(0)->0.0");
    } else {
      var n := Lookup(nodos, index);
      if n == null {
        ExprZeroLabels(g, "; nodo null->0.0");
      } else {
        var l, r := IndexOf(n.izquierdo), IndexOf(n.derecho);
        if IsArith(n.valor) {
          BinaryFloatOpLabels(nodos, isNum, g, n.valor, l, r);
        } else if n.valor == "%" {
          ModOpLabels(nodos, isNum, g, l, r);
        } else if IsRelational(n.valor) {
          ComparisonLabels(nodos, isNum, g, n.valor, l, r);
        } else {
          LiteralOrVarLabels(isNum, g, n.valor);
        }
      }
    }
  }

  lemma {:induction false} OperandsLabels(nodos: map<int, Nodo>, isNum: string -> bool, g: Gen, leftIdx: int, rightIdx: int)
    requires WellFormed(nodos)
    ensures var (left, right) := Operands(nodos, isNum, g, leftIdx, rightIdx); PairLabels(g, left, right)
    decreases MaxRank(leftIdx, rightIdx), 1
  {
    var left := Expr(nodos, isNum, g, leftIdx);
    ExprLabels(nodos, isNum, g, leftIdx);
    ExprLabels(nodos, isNum, left.out.gen, rightIdx);
  }

  lemma {:induction false} BinaryFloatOpLabels(nodos: map<int, Nodo>, isNum: string -> bool, g: Gen, op: string, leftIdx: int, rightIdx: int)
    requires WellFormed(nodos)
    ensures LabelsOk(g, BinaryFloatOp(nodos, isNum, g, op, leftIdx, rightIdx).out)
    decreases MaxRank(leftIdx, rightIdx), 2
  {
    OperandsLabels(nodos, isNum, g, leftIdx, rightIdx);
    var (left, right) := Operands(nodos, isNum, g, leftIdx, rightIdx);
    BinOpTailLabels(g, op, left, right);
  }

  lemma {:induction false} ModOpLabels(nodos: map<int, Nodo>, isNum: string -> bool, g: Gen, leftIdx: int, rightIdx: int)
    requires WellFormed(nodos)
    ensures LabelsOk(g, ModOp(nodos, isNum, g, leftIdx, rightIdx).out)
    decreases MaxRank(leftIdx, rightIdx), 2
  {
    OperandsLabels(nodos, isNum, g, leftIdx, rightIdx);
    var (left, right) := Operands(nodos, isNum, g, leftIdx, rightIdx);
    ModTailLabels(g, left, right);
  }

  lemma {:induction false} ComparisonLabels(nodos: map<int, Nodo>, isNum: string -> bool, g: Gen, op: string, leftIdx: int, rightIdx: int)
    requires WellFormed(nodos)
    ensures LabelsOk(g, Comparison(nodos, isNum, g, op, leftIdx, rightIdx).out)
    decreases MaxRank(leftIdx, rightIdx), 2
  {
    OperandsLabels(nodos, isNum, g, leftIdx, rightIdx);
    var (left, right) := Operands(nodos, isNum, g, leftIdx, rightIdx);
    CmpTailLabels(g, op, left, right);
  }

  // ---------------------------------------------------------------------
  // Statements
  // ---------------------------------------------------------------------

  /** The layout of `genIf` without `cuerpo`, on any blocks: banner,
      condition (labels up to `k`), test jumping to ELSE, body (labels above
      `k + 2`), then ELSE and END_IF numbered `k + 1` and `k + 2`. */
  lemma IfLayoutLabels(ban: seq<Line>, cc: seq<Line>, t: seq<Line>, bc: seq<Line>, m: seq<Line>, lo: int, k: int, hi: int)
    requires NoLabels(ban) && lo <= k && k + 2 <= hi
    requires MarksIn(cc, lo, k) && DistinctMarks(cc) && JumpsInto(cc, cc)
    requires MarksIn(bc, k + 2, hi) && DistinctMarks(bc) && JumpsInto(bc, bc)
    requires |m| == 2 && m[0].Mark? && m[1].Mark? && m[0].l.n == k + 1 && m[1].l.n == k + 2
    requires forall ln | ln in t :: !ln.Mark? && (ln.Jump? ==> ln.target == m[0].l)
    ensures var code := ((ban + cc) + t) + (bc + m);
      MarksIn(code, lo, hi) && DistinctMarks(code)
  {
    IfHeadMarks(ban, cc, t, lo, k);
    ApartByRanges(bc, m, k + 2, hi, k, k + 2);
    DistinctConcat(bc, m);
    ApartByRanges((ban + cc) + t, bc + m, lo, k, k, hi);
    DistinctConcat((ban + cc) + t, bc + m);
  }

  lemma IfLayoutJumps(ban: seq<Line>, cc: seq<Line>, t: seq<Line>, bc: seq<Line>, m: seq<Line>)
    requires NoLabels(ban) && JumpsInto(cc, cc) && JumpsInto(bc, bc)
    requires |m| == 2 && m[0].Mark? && m[1].Mark?
    requires forall ln | ln in t :: ln.Jump? ==> ln.target == m[0].l
    ensures var code := ((ban + cc) + t) + (bc + m);
      JumpsInto(code, code)
  {
    var code := ((ban + cc) + t) + (bc + m);
    assert m[0] == Mark(m[0].l) && m[0] in bc + m;
    forall ln | ln in code && ln.Jump?
      ensures Mark(ln.target) in code
    {
      if ln in cc {
        assert Mark(ln.target) in cc;
      } else if ln in bc {
        assert Mark(ln.target) in bc;
      }
    }
  }

  /** `genIf` without `cuerpo`: ELSE and END_IF are the two labels after the
      condition's, the body's come after them, and the test jumps to ELSE. */
  lemma IfTailLabels(g: Gen, cond: Emitted, body: Out)
    requires LabelsOk(g, cond.out) && LabelsOk(IfLabels(cond).gen, body)
    ensures LabelsOk(g, IfTail(g, cond, body))
  {
    var ls := IfLabels(cond);
    BannersPlain();
    TestZeroJumps(cond.temp, ls.first);
    IfLayoutLabels(IfBanner, cond.out.code, TestZero(cond.temp, ls.first), body.code, [Mark(ls.first), Mark(ls.second)],
      g.labels, cond.out.gen.labels, body.gen.labels);
    IfLayoutJumps(IfBanner, cond.out.code, TestZero(cond.temp, ls.first), body.code, [Mark(ls.first), Mark(ls.second)]);
  }

  /** The layout of `genIf` with `cuerpo`, on any blocks: banner, condition,
      test jumping to ELSE, true part, `jmp END_IF` and ELSE, false part,
      END_IF. */
  lemma IfElseLayoutLabels(ban: seq<Line>, cc: seq<Line>, t: seq<Line>, tc: seq<Line>, j: seq<Line>, fc: seq<Line>, e: seq<Line>,
                           lo: int, k: int, mid: int, hi: int)
    requires NoLabels(ban) && lo <= k && k + 2 <= mid <= hi
    requires MarksIn(cc, lo, k) && DistinctMarks(cc) && JumpsInto(cc, cc)
    requires MarksIn(tc, k + 2, mid) && DistinctMarks(tc) && JumpsInto(tc, tc)
    requires MarksIn(fc, mid, hi) && DistinctMarks(fc) && JumpsInto(fc, fc)
    requires |j| == 2 && j[0].Jump? && j[1].Mark? && j[1].l.n == k + 1
    requires |e| == 1 && e[0].Mark? && e[0].l.n == k + 2 && j[0].target == e[0].l
    requires forall ln | ln in t :: !ln.Mark? && (ln.Jump? ==> ln.target == j[1].l)
    ensures var code := ((ban + cc) + t) + ((tc + j) + (fc + e));
      MarksIn(code, lo, hi) && DistinctMarks(code)
  {
    IfHeadMarks(ban, cc, t, lo, k);
    IfElseBodyMarks(tc, j, fc, e, k, mid, hi);
    ApartByRanges((ban + cc) + t, (tc + j) + (fc + e), lo, k, k, hi);
    DistinctConcat((ban + cc) + t, (tc + j) + (fc + e));
  }

  /** Banner, condition and zero test: the condition's labels only. */
  lemma IfHeadMarks(ban: seq<Line>, cc: seq<Line>, t: seq<Line>, lo: int, k: int)
    requires NoLabels(ban) && lo <= k
    requires MarksIn(cc, lo, k) && DistinctMarks(cc)
    requires forall ln | ln in t :: !ln.Mark?
    ensures MarksIn((ban + cc) + t, lo, k) && DistinctMarks((ban + cc) + t)
  {
    ApartByRanges(ban, cc, lo, lo, lo, k);
    DistinctConcat(ban, cc);
    ApartByRanges(ban + cc, t, lo, k, k, k);
    DistinctConcat(ban + cc, t);
  }

  /** True part, `jmp END_IF`, ELSE, false part, END_IF. */
  lemma IfElseBodyMarks(tc: seq<Line>, j: seq<Line>, fc: seq<Line>, e: seq<Line>, k: int, mid: int, hi: int)
    requires k + 2 <= mid <= hi
    requires MarksIn(tc, k + 2, mid) && DistinctMarks(tc)
    requires MarksIn(fc, mid, hi) && DistinctMarks(fc)
    requires |j| == 2 && !j[0].Mark? && j[1].Mark? && j[1].l.n == k + 1
    requires |e| == 1 && e[0].Mark? && e[0].l.n == k + 2
    ensures MarksIn((tc + j) + (fc + e), k, hi) && DistinctMarks((tc + j) + (fc + e))
  {
    assert j == [j[0], j[1]];
    ApartByRanges(tc, j, k + 2, mid, k, k + 1);
    DistinctConcat(tc, j);
    ApartByRanges(fc, e, mid, hi, k + 1, k + 2);
    DistinctConcat(fc, e);
    IfElseBodyApart(tc, j, fc, e, k, mid, hi);
    DistinctConcat(tc + j, fc + e);
  }

  lemma IfElseBodyApart(tc: seq<Line>, j: seq<Line>, fc: seq<Line>, e: seq<Line>, k: int, mid: int, hi: int)
    requires k + 2 <= mid <= hi
    requires MarksIn(tc, k + 2, mid) && MarksIn(fc, mid, hi)
    requires MarksIn(j, k, k + 1) && MarksIn(e, k + 1, k + 2)
    ensures Apart(tc + j, fc + e)
  {
    ApartByRanges(tc, fc, k + 2, mid, mid, hi);
    ApartByRanges(tc, e, k + 2, mid, k + 1, k + 2);
    ApartByRanges(j, fc, k, k + 1, mid, hi);
    ApartByRanges(j, e, k, k + 1, k + 1, k + 2);
  }

  lemma IfElseLayoutJumps(ban: seq<Line>, cc: seq<Line>, t: seq<Line>, tc: seq<Line>, j: seq<Line>, fc: seq<Line>, e: seq<Line>)
    requires NoLabels(ban) && JumpsInto(cc, cc) && JumpsInto(tc, tc) && JumpsInto(fc, fc)
    requires |j| == 2 && j[0].Jump? && j[1].Mark?
    requires |e| == 1 && e[0].Mark? && j[0].target == e[0].l
    requires forall ln | ln in t :: ln.Jump? ==> ln.target == j[1].l
    ensures var code := ((ban + cc) + t) + ((tc + j) + (fc + e));
      JumpsInto(code, code)
  {
    var code := ((ban + cc) + t) + ((tc + j) + (fc + e));
    assert j[1] == Mark(j[1].l) && j[1] in tc + j;
    assert e[0] == Mark(e[0].l) && e[0] in fc + e;
    assert j == [j[0], j[1]];
    forall ln | ln in code && ln.Jump?
      ensures Mark(ln.target) in code
    {
      if ln in cc {
        assert Mark(ln.target) in cc;
      } else if ln in tc {
        assert Mark(ln.target) in tc;
      } else if ln in fc {
        assert Mark(ln.target) in fc;
      }
    }
  }

  /** `genIf` with `cuerpo`: the test jumps to ELSE, the true part ends with
      a jump to END_IF, and both parts' labels come after those two. */
  lemma IfElseTailLabels(g: Gen, cond: Emitted, tru: Out, fls: Out)
    requires LabelsOk(g, cond.out) && LabelsOk(IfLabels(cond).gen, tru) && LabelsOk(tru.gen, fls)
    ensures LabelsOk(g, IfElseTail(g, cond, tru, fls))
  {
    var ls := IfLabels(cond);
    BannersPlain();
    TestZeroJumps(cond.temp, ls.first);
    IfElseLayoutLabels(IfBanner, cond.out.code, TestZero(cond.temp, ls.first), tru.code, [Jump("jmp ", ls.second), Mark(ls.first)],
      fls.code, [Mark(ls.second)], g.labels, cond.out.gen.labels, tru.gen.labels, fls.gen.labels);
    IfElseLayoutJumps(IfBanner, cond.out.code, TestZero(cond.temp, ls.first), tru.code, [Jump("jmp ", ls.second), Mark(ls.first)],
      fls.code, [Mark(ls.second)]);
  }

  /** The layout of `genWhile`, on any blocks: banner and WHILE (numbered
      `lo + 1`), condition, test jumping to ENDWHILE, body, the jump back
      to WHILE and ENDWHILE (numbered `lo + 2`). */
  lemma WhileLayoutLabels(hd: seq<Line>, cc: seq<Line>, t: seq<Line>, bc: seq<Line>, bk: seq<Line>, lo: int, k: int, hi: int)
    requires lo + 2 <= k <= hi
    requires |hd| >= 1 && hd[|hd| - 1].Mark? && hd[|hd| - 1].l.n == lo + 1 && NoLabels(hd[..|hd| - 1])
    requires MarksIn(cc, lo + 2, k) && DistinctMarks(cc) && JumpsInto(cc, cc)
    requires MarksIn(bc, k, hi) && DistinctMarks(bc) && JumpsInto(bc, bc)
    requires |bk| == 2 && bk[0].Jump? && bk[0].target == hd[|hd| - 1].l && bk[1].Mark? && bk[1].l.n == lo + 2
    requires forall ln | ln in t :: !ln.Mark? && (ln.Jump? ==> ln.target == bk[1].l)
    ensures var code := (hd + cc) + (t + (bc + bk));
      MarksIn(code, lo, hi) && DistinctMarks(code)
  {
    WhileHeadMarks(hd, cc, lo, k);
    WhileBackMarks(t, bc, bk, lo, k, hi);
    WhileApart(hd, cc, t, bc, bk, lo, k, hi);
    DistinctConcat(hd + cc, t + (bc + bk));
  }

  /** Banner, WHILE and the condition. */
  lemma WhileHeadMarks(hd: seq<Line>, cc: seq<Line>, lo: int, k: int)
    requires lo + 2 <= k
    requires |hd| >= 1 && hd[|hd| - 1].Mark? && hd[|hd| - 1].l.n == lo + 1 && NoLabels(hd[..|hd| - 1])
    requires MarksIn(cc, lo + 2, k) && DistinctMarks(cc)
    ensures MarksIn(hd, lo, lo + 1) && MarksIn(hd + cc, lo, k) && DistinctMarks(hd + cc)
  {
    var start := hd[|hd| - 1];
    assert hd == hd[..|hd| - 1] + [start];
    ApartByRanges(hd[..|hd| - 1], [start], lo, lo, lo, lo + 1);
    DistinctConcat(hd[..|hd| - 1], [start]);
    ApartByRanges(hd, cc, lo, lo + 1, lo + 2, k);
    DistinctConcat(hd, cc);
  }

  /** Zero test, body, the jump back and ENDWHILE. */
  lemma WhileBackMarks(t: seq<Line>, bc: seq<Line>, bk: seq<Line>, lo: int, k: int, hi: int)
    requires lo + 2 <= k <= hi
    requires MarksIn(bc, k, hi) && DistinctMarks(bc)
    requires |bk| == 2 && !bk[0].Mark? && bk[1].Mark? && bk[1].l.n == lo + 2
    requires forall ln | ln in t :: !ln.Mark?
    ensures MarksIn(t, lo, lo) && MarksIn(bk, lo + 1, lo + 2) && DistinctMarks(t + (bc + bk))
    ensures MarksIn(t + (bc + bk), lo, hi)
  {
    assert bk == [bk[0], bk[1]];
    ApartByRanges(bc, bk, k, hi, lo + 1, lo + 2);
    DistinctConcat(bc, bk);
    ApartByRanges(t, bc + bk, lo, lo, lo, hi);
    DistinctConcat(t, bc + bk);
  }

  lemma WhileApart(hd: seq<Line>, cc: seq<Line>, t: seq<Line>, bc: seq<Line>, bk: seq<Line>, lo: int, k: int, hi: int)
    requires lo + 2 <= k <= hi
    requires MarksIn(hd, lo, lo + 1) && MarksIn(cc, lo + 2, k)
    requires MarksIn(t, lo, lo) && MarksIn(bc, k, hi) && MarksIn(bk, lo + 1, lo + 2)
    ensures Apart(hd + cc, t + (bc + bk))
  {
    ApartByRanges(hd, bc, lo, lo + 1, k, hi);
    ApartByRanges(hd, bk, lo, lo + 1, lo + 1, lo + 2);
    ApartByRanges(cc, bc, lo + 2, k, k, hi);
    ApartByRanges(cc, bk, lo + 2, k, lo + 1, lo + 2);
    ApartByRanges(hd, t, lo, lo + 1, lo, lo);
    ApartByRanges(cc, t, lo + 2, k, lo, lo);
  }

  lemma WhileLayoutJumps(hd: seq<Line>, cc: seq<Line>, t: seq<Line>, bc: seq<Line>, bk: seq<Line>)
    requires |hd| >= 1 && hd[|hd| - 1].Mark? && NoLabels(hd[..|hd| - 1])
    requires JumpsInto(cc, cc) && JumpsInto(bc, bc)
    requires |bk| == 2 && bk[0].Jump? && bk[0].target == hd[|hd| - 1].l && bk[1].Mark?
    requires forall ln | ln in t :: ln.Jump? ==> ln.target == bk[1].l
    ensures var code := (hd + cc) + (t + (bc + bk));
      JumpsInto(code, code)
  {
    var code := (hd + cc) + (t + (bc + bk));
    var start := hd[|hd| - 1];
    assert hd == hd[..|hd| - 1] + [start];
    assert start == Mark(start.l) && start in hd;
    assert bk[1] == Mark(bk[1].l) && bk[1] in bc + bk;
    assert bk == [bk[0], bk[1]];
    forall ln | ln in code && ln.Jump?
      ensures Mark(ln.target) in code
    {
      if ln in cc {
        assert Mark(ln.target) in cc;
      } else if ln in bc {
        assert Mark(ln.target) in bc;
      }
    }
  }

  /** `genWhile`: WHILE and ENDWHILE come before the condition's labels, the
      test jumps to ENDWHILE and the back jump to WHILE. */
  lemma WhileTailLabels(g: Gen, cond: Emitted, body: Out)
    requires LabelsOk(WhileLabels(g).gen, cond.out) && LabelsOk(cond.out.gen, body)
    ensures LabelsOk(g, WhileTail(g, cond, body))
  {
    var ls := WhileLabels(g);
    var hd := WhileBanner + [Mark(ls.first)];
    BannersPlain();
    assert hd[..|hd| - 1] == WhileBanner;
    TestZeroJumps(cond.temp, ls.second);
    WhileLayoutLabels(hd, cond.out.code, TestZero(cond.temp, ls.second), body.code, [Jump("jmp ", ls.first), Mark(ls.second)],
      g.labels, cond.out.gen.labels, body.gen.labels);
    WhileLayoutJumps(hd, cond.out.code, TestZero(cond.temp, ls.second), body.code, [Jump("jmp ", ls.first), Mark(ls.second)]);
  }

  lemma AssignTailLabels(g: Gen, target: string, e: Emitted)
    requires LabelsOk(g, e.out)
    ensures LabelsOk(g, AssignTail(g, target, e))
  {
    BannersPlain();
    PlainLabels(g, Lines(g, AssignBanner));
    PlainLabels(e.out.gen, Lines(e.out.gen, [Mem("FLD  ", e.temp), Mem("FSTP ", Var(target))]));
    LabelsThen(g, Lines(g, AssignBanner), e.out);
    LabelsThen(g, Then(Lines(g, AssignBanner), e.out), Lines(e.out.gen, [Mem("FLD  ", e.temp), Mem("FSTP ", Var(target))]));
  }

  /** Every statement's labels are its own, placed once, and its jumps stay
      inside it. */
  lemma {:induction false} StmtLabels(nodos: map<int, Nodo>, isNum: string -> bool, g: Gen, index: int)
    requires WellFormed(nodos)
    ensures LabelsOk(g, Stmt(nodos, isNum, g, index))
    decreases Rank(index), 1
  {
    if index == 0 {
      PlainLabels(g, Lines(g, []));
    } else {
      var n := Lookup(nodos, index);
      if n == null {
        PlainLabels(g, Lines(g, []));
      } else {
        var l, r := IndexOf(n.izquierdo), IndexOf(n.derecho);
        if n.valor == ";" {
          BlockLabels(nodos, isNum, g, l, r);
        } else if n.valor == "if" {
          IfLabelsOk(nodos, isNum, g, l, r);
        } else if n.valor == "while" {
          WhileLabelsOk(nodos, isNum, g, l, r);
        } else if n.valor == "=" {
          AssignLabels(nodos, isNum, g, l, r);
        } else {
          ExprLabels(nodos, isNum, g, index);
        }
      }
    }
  }

  lemma {:induction false} BlockLabels(nodos: map<int, Nodo>, isNum: string -> bool, g: Gen, leftIdx: int, rightIdx: int)
    requires WellFormed(nodos)
    ensures LabelsOk(g, BlockStmt(nodos, isNum, g, leftIdx, rightIdx))
    decreases MaxRank(leftIdx, rightIdx), 2
  {
    var left := Stmt(nodos, isNum, g, leftIdx);
    StmtLabels(nodos, isNum, g, leftIdx);
    StmtLabels(nodos, isNum, left.gen, rightIdx);
    LabelsThen(g, left, Stmt(nodos, isNum, left.gen, rightIdx));
  }

  lemma {:induction false} IfLabelsOk(nodos: map<int, Nodo>, isNum: string -> bool, g: Gen, condIdx: int, bodyIdx: int)
    requires WellFormed(nodos)
    ensures LabelsOk(g, IfStmt(nodos, isNum, g, condIdx, bodyIdx))
    decreases MaxRank(condIdx, bodyIdx), 2
  {
    var cond := Expr(nodos, isNum, g, condIdx);
    ExprLabels(nodos, isNum, g, condIdx);
    var labels := IfLabels(cond).gen;
    var bodyNode := Lookup(nodos, bodyIdx);
    if bodyNode != null && bodyNode.valor == "cuerpo" {
      var tru := Stmt(nodos, isNum, labels, IndexOf(bodyNode.izquierdo));
      StmtLabels(nodos, isNum, labels, IndexOf(bodyNode.izquierdo));
      StmtLabels(nodos, isNum, tru.gen, IndexOf(bodyNode.derecho));
      IfElseTailLabels(g, cond, tru, Stmt(nodos, isNum, tru.gen, IndexOf(bodyNode.derecho)));
    } else {
      StmtLabels(nodos, isNum, labels, bodyIdx);
      IfTailLabels(g, cond, Stmt(nodos, isNum, labels, bodyIdx));
    }
  }

  lemma {:induction false} WhileLabelsOk(nodos: map<int, Nodo>, isNum: string -> bool, g: Gen, condIdx: int, bodyIdx: int)
    requires WellFormed(nodos)
    ensures LabelsOk(g, WhileStmt(nodos, isNum, g, condIdx, bodyIdx))
    decreases MaxRank(condIdx, bodyIdx), 2
  {
    var cond := Expr(nodos, isNum, WhileLabels(g).gen, condIdx);
    ExprLabels(nodos, isNum, WhileLabels(g).gen, condIdx);
    StmtLabels(nodos, isNum, cond.out.gen, bodyIdx);
    WhileTailLabels(g, cond, Stmt(nodos, isNum, cond.out.gen, bodyIdx));
  }

  lemma {:induction false} AssignLabels(nodos: map<int, Nodo>, isNum: string -> bool, g: Gen, leftIdx: int, rightIdx: int)
    requires WellFormed(nodos)
    ensures LabelsOk(g, AssignStmt(nodos, isNum, g, leftIdx, rightIdx))
    decreases MaxRank(leftIdx, rightIdx), 2
  {
    var varNode := Lookup(nodos, leftIdx);
    if varNode == null {
      BannersPlain();
      PlainLabels(g, Lines(g, AssignBanner));
    } else {
      ExprLabels(nodos, isNum, g, rightIdx);
      AssignTailLabels(g, varNode.valor, Expr(nodos, isNum, g, rightIdx));
    }
  }
}

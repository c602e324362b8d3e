/** The lines the assembly generator appends to its two buffers, with
    abstract operands, and their exact text. */
module AsmText {
  import opened Decimal

  /** The label families `newLabel` is called with. */
  datatype LabelBase = Else | EndIf | While | EndWhile | CmpTrue | CmpEnd

  /** `<BASE><N>`: a jump target numbered by `labelCount`. */
  datatype Label = Label(base: LabelBase, n: nat)

  /** Storage operands: `@tmpN` and `@litN` share `tempCount`, `@intSlotN`
      uses `intSlotCount`, and `Var` is a user variable or identifier. */
  datatype Name = Tmp(n: nat) | Lit(n: nat) | IntSlot(n: nat) | Var(id: string)

  /** One text line (the source appends each with a trailing newline). */
  datatype Line =
    | Text(s: string)                   // fixed text: directives, comments, operand-free instructions
    | Mem(op: string, x: Name)          // `\t<op>[x]`; `op` keeps the source's padding ("FLD ", "FLD  ", ...)
    | Jump(op: string, target: Label)   // `\t<op><label>`
    | Mark(l: Label)                    // `<label>:`
    | Decl(x: Name, init: string)       // `<x> <init>` in the data section

  const Blank := Text("")

  function BaseText(b: LabelBase): string {
    match b
    case Else => "ELSE"
    case EndIf => "END_IF"
    case While => "WHILE"
    case EndWhile => "ENDWHILE"
    case CmpTrue => "CMPTRUE"
    case CmpEnd => "CMPEND"
  }

  function LabelText(l: Label): string {
    BaseText(l.base) + NatToString(l.n)
  }

  function NameText(x: Name): string {
    match x
    case Tmp(n) => "@tmp" + NatToString(n)
    case Lit(n) => "@lit" + NatToString(n)
    case IntSlot(n) => "@intSlot" + NatToString(n)
    case Var(id) => id
  }

  function LineText(ln: Line): string {
    match ln
    case Text(s) => s
    case Mem(op, x) => "\t" + op + "[" + NameText(x) + "]"
    case Jump(op, t) => "\t" + op + LabelText(t)
    case Mark(l) => LabelText(l) + ":"
    case Decl(x, init) => NameText(x) + " " + init
  }

  /** The buffer's text: every line followed by a newline. */
  function Render(lines: seq<Line>): (s: string)
    ensures |s| >= |lines|
  {
    if lines == [] then "" else LineText(lines[0]) + "\n" + Render(lines[1..])
  }

  lemma {:induction false} RenderConcat(a: seq<Line>, b: seq<Line>)
    ensures Render(a + b) == Render(a) + Render(b)
  {
    if a == [] {
      assert a + b == b;
    } else {
      assert (a + b)[0] == a[0];
      assert (a + b)[1..] == a[1..] + b;
      RenderConcat(a[1..], b);
      var h := LineText(a[0]) + "\n";
      calc {
        Render(a + b);
        h + Render(a[1..] + b);
        h + (Render(a[1..]) + Render(b));
        (h + Render(a[1..])) + Render(b);
      }
    }
  }

  predicate NoDigits(s: string) {
    forall i :: 0 <= i < |s| ==> !IsDigit(s[i])
  }

  lemma FirstDigitAt(b: string, d: string)
    requires NoDigits(b) && d != [] && AllDigits(d)
    ensures IsDigit((b + d)[|b|])
    ensures forall i :: 0 <= i < |b| ==> !IsDigit((b + d)[i])
  {
    assert (b + d)[|b|] == d[0];
  }

  /** A digit-free stem followed by a non-empty run of digits splits in one
      way only: the stem ends where the first digit is. */
  lemma StemDigitsSplit(b1: string, d1: string, b2: string, d2: string)
    requires NoDigits(b1) && NoDigits(b2)
    requires d1 != [] && AllDigits(d1) && d2 != [] && AllDigits(d2)
    requires b1 + d1 == b2 + d2
    ensures b1 == b2 && d1 == d2
  {
    var s := b1 + d1;
    FirstDigitAt(b1, d1);
    FirstDigitAt(b2, d2);
    assert |b1| == |b2|;
    assert b1 == s[..|b1|] && b2 == s[..|b2|];
    assert d1 == s[|b1|..] && d2 == s[|b2|..];
  }

  /** Different labels are printed differently, so no label text is ever
      produced by two `newLabel` calls. */
  lemma LabelTextInjective(a: Label, b: Label)
    requires LabelText(a) == LabelText(b)
    ensures a == b
  {
    StemDigitsSplit(BaseText(a.base), NatToString(a.n), BaseText(b.base), NatToString(b.n));
    NatToStringInjective(a.n, b.n);
  }

  /** Generated storage names (`@tmpN`, `@litN`, `@intSlotN`) are printed
      differently whenever they differ. */
  lemma GeneratedNameTextInjective(a: Name, b: Name)
    requires !a.Var? && !b.Var?
    requires NameText(a) == NameText(b)
    ensures a == b
  {
    var sa := match a case Tmp(_) => "@tmp" case Lit(_) => "@lit" case IntSlot(_) => "@intSlot" case Var(_) => "";
    var sb := match b case Tmp(_) => "@tmp" case Lit(_) => "@lit" case IntSlot(_) => "@intSlot" case Var(_) => "";
    assert NameText(a) == sa + NatToString(a.n);
    assert NameText(b) == sb + NatToString(b.n);
    StemDigitsSplit(sa, NatToString(a.n), sb, NatToString(b.n));
    NatToStringInjective(a.n, b.n);
  }
}

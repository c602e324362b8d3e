/** `Nodo`: the immutable binary AST node the assembly generator walks.
    Java's static NODE_COUNTER is the object `NodoCounter`; every constructor
    takes it and bumps it, so ids start at 1 and strictly increase. */
module Nodos {
  import opened Decimal

  /** The process-wide id counter shared by all constructors. */
  class NodoCounter {
    var count: nat

    constructor ()
      ensures count == 0
    {
      count := 0;
    }
  }

  class Nodo {
    // All four fields are final in the source; a const is its own getter.
    const indice: nat
    const valor: string
    const izquierdo: Nodo?
    const derecho: Nodo?

    /** Ids are positive and every child was built before its parent. */
    ghost predicate Valid()
      decreases indice
    {
      && indice >= 1
      && (izquierdo != null ==> izquierdo.indice < indice && izquierdo.Valid())
      && (derecho != null ==> derecho.indice < indice && derecho.Valid())
    }

    /** Interior node with two (possibly null) children. The requires on a
        child says it was numbered by this same counter, which in the source
        is the single static NODE_COUNTER. */
    constructor Binary(valor: string, izquierdo: Nodo?, derecho: Nodo?, ids: NodoCounter)
      requires izquierdo != null ==> izquierdo.Valid() && izquierdo.indice <= ids.count
      requires derecho != null ==> derecho.Valid() && derecho.indice <= ids.count
      modifies ids
      ensures ids.count == old(ids.count) + 1 && indice == ids.count
      ensures this.valor == valor && this.izquierdo == izquierdo && this.derecho == derecho
      ensures Valid()
    {
      indice := ids.count + 1;
      this.valor := valor;
      this.izquierdo := izquierdo;
      this.derecho := derecho;
      new;
      ids.count := indice;
    }

    /** Interior node with a left child only; the right child is null. */
    constructor Unary(valor: string, izquierdo: Nodo?, ids: NodoCounter)
      requires izquierdo != null ==> izquierdo.Valid() && izquierdo.indice <= ids.count
      modifies ids
      ensures ids.count == old(ids.count) + 1 && indice == ids.count
      ensures this.valor == valor && this.izquierdo == izquierdo && derecho == null
      ensures Valid()
    {
      indice := ids.count + 1;
      this.valor := valor;
      this.izquierdo := izquierdo;
      derecho := null;
      new;
      ids.count := indice;
    }

    /** Leaf node: a constant or a variable name, no children. */
    constructor Leaf(valor: string, ids: NodoCounter)
      modifies ids
      ensures ids.count == old(ids.count) + 1 && indice == ids.count
      ensures this.valor == valor && izquierdo == null && derecho == null
      ensures Valid()
    {
      indice := ids.count + 1;
      this.valor := valor;
      izquierdo := null;
      derecho := null;
      new;
      ids.count := indice;
    }

    /** `Nodo{indice=<i>, valor='<v>'}`; the text determines id and tag. */
    function ToString(): (s: string)
      ensures ParseNodoText(s) == Some((indice, valor))
    {
      var s := NodoTextPrefix + NatToString(indice) + NodoTextMiddle + valor + NodoTextSuffix;
      NodoTextRoundTrip(indice, valor);
      s
    }
  }

  const NodoTextPrefix := "Nodo{indice="
  const NodoTextMiddle := ", valor='"
  const NodoTextSuffix := "'}"

  /** AsmCodeGenerator.getIndex: a child's id, or 0 for an absent child. */
  function IndexOf(n: Nodo?): (i: nat)
    requires n != null ==> n.Valid()
    ensures (i == 0) == (n == null)
    ensures n != null ==> i == n.indice
  {
    if n == null then 0 else n.indice
  }

  /** Number of leading decimal digits of `s`. */
  function LeadingDigits(s: string): (k: nat)
    ensures k <= |s| && AllDigits(s[..k])
    ensures k < |s| ==> !IsDigit(s[k])
  {
    if s != [] && IsDigit(s[0]) then
      var k := 1 + LeadingDigits(s[1..]);
      assert s[..k] == [s[0]] + s[1..][..k - 1];
      k
    else 0
  }

  /** Reads an id and a tag back out of a `Nodo.toString` text. */
  function ParseNodoText(s: string): Option<(nat, string)>
  {
    var p, m, x := |NodoTextPrefix|, |NodoTextMiddle|, |NodoTextSuffix|;
    if |s| < p + x || s[..p] != NodoTextPrefix || s[|s| - x..] != NodoTextSuffix then None
    else
      var rest := s[p..|s| - x];
      var k := LeadingDigits(rest);
      if k == 0 || |rest| < k + m || rest[k..k + m] != NodoTextMiddle then None
      else Some((DigitsValue(rest[..k]), rest[k + m..]))
  }

  lemma {:induction false} LeadingDigitsOfConcat(d: string, t: string)
    requires AllDigits(d)
    requires t != [] && !IsDigit(t[0])
    ensures LeadingDigits(d + t) == |d|
  {
    if d != [] {
      assert (d + t)[1..] == d[1..] + t;
      LeadingDigitsOfConcat(d[1..], t);
    } else {
      assert d + t == t;
    }
  }

  lemma NodoTextRoundTrip(i: nat, v: string)
    ensures ParseNodoText(NodoTextPrefix + NatToString(i) + NodoTextMiddle + v + NodoTextSuffix) == Some((i, v))
  {
    var d := NatToString(i);
    var s := NodoTextPrefix + d + NodoTextMiddle + v + NodoTextSuffix;
    var p, x := |NodoTextPrefix|, |NodoTextSuffix|;
    assert s[..p] == NodoTextPrefix;
    assert s[|s| - x..] == NodoTextSuffix;
    var rest := s[p..|s| - x];
    assert rest == d + (NodoTextMiddle + v);
    LeadingDigitsOfConcat(d, NodoTextMiddle + v);
    assert rest[..|d|] == d;
    assert rest[|d|..|d| + |NodoTextMiddle|] == NodoTextMiddle;
    assert rest[|d| + |NodoTextMiddle|..] == v;
    ParseNatToString(i);
  }
}

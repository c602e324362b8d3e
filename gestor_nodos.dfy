/** `GestorNodos`: the arena that owns every AST node, keyed by node id. */
module Arena {
  import opened Decimal
  import opened Nodos

  /** A stored child is stored under its own id. */
  ghost predicate ChildStored(nodos: map<int, Nodo>, c: Nodo?) {
    c != null ==> c.indice in nodos && nodos[c.indice] == c
  }

  /** Shape every arena built by `crearNodo` has: each node under its own
      (positive) id, children stored too and numbered below their parent. */
  ghost predicate WellFormed(nodos: map<int, Nodo>) {
    forall k | k in nodos ::
      && k >= 1
      && nodos[k].indice == k
      && nodos[k].Valid()
      && ChildStored(nodos, nodos[k].izquierdo)
      && ChildStored(nodos, nodos[k].derecho)
  }

  /** `nodos.get(indice)`: the stored node, or null. */
  function Lookup(nodos: map<int, Nodo>, indice: int): (n: Nodo?)
    requires WellFormed(nodos)
    ensures n != null ==> n.Valid() && n.indice == indice && indice >= 1
    ensures n == null <==> indice !in nodos
  {
    if indice in nodos then nodos[indice] else null
  }

  class GestorNodos {
    var nodos: map<int, Nodo>
    const ids: NodoCounter

    ghost predicate Valid()
      reads this, ids
    {
      WellFormed(nodos) && forall k | k in nodos :: k <= ids.count
    }

    constructor (ids: NodoCounter)
      ensures Valid() && nodos == map[] && this.ids == ids
    {
      nodos := map[];
      this.ids := ids;
    }

    /** crearNodo(valor, indiceIzq, indiceDer): children are looked up first,
        an absent index giving a null child. */
    method CrearNodoBinario(valor: string, indiceIzq: int, indiceDer: int) returns (indice: int)
      requires Valid()
      modifies this, ids
      ensures Valid()
      ensures ids.count == old(ids.count) + 1 && indice == ids.count
      ensures forall k | k in old(nodos) :: k < indice
      ensures indice in nodos && nodos == old(nodos)[indice := nodos[indice]] && fresh(nodos[indice])
      ensures nodos[indice].valor == valor
      ensures nodos[indice].izquierdo == Lookup(old(nodos), indiceIzq)
      ensures nodos[indice].derecho == Lookup(old(nodos), indiceDer)
    {
      var izquierdo := Lookup(nodos, indiceIzq);
      var derecho := Lookup(nodos, indiceDer);
      var nuevo := new Nodo.Binary(valor, izquierdo, derecho, ids);
      nodos := nodos[nuevo.indice := nuevo];
      indice := nuevo.indice;
    }

    /** crearNodo(valor, indiceIzq): one child, the right one is null. */
    method CrearNodoUnario(valor: string, indiceIzq: int) returns (indice: int)
      requires Valid()
      modifies this, ids
      ensures Valid()
      ensures ids.count == old(ids.count) + 1 && indice == ids.count
      ensures forall k | k in old(nodos) :: k < indice
      ensures indice in nodos && nodos == old(nodos)[indice := nodos[indice]] && fresh(nodos[indice])
      ensures nodos[indice].valor == valor
      ensures nodos[indice].izquierdo == Lookup(old(nodos), indiceIzq)
      ensures nodos[indice].derecho == null
    {
      var izquierdo := Lookup(nodos, indiceIzq);
      var nuevo := new Nodo.Unary(valor, izquierdo, ids);
      nodos := nodos[nuevo.indice := nuevo];
      indice := nuevo.indice;
    }

    /** crearNodo(valor): a leaf. */
    method CrearNodoHoja(valor: string) returns (indice: int)
      requires Valid()
      modifies this, ids
      ensures Valid()
      ensures ids.count == old(ids.count) + 1 && indice == ids.count
      ensures forall k | k in old(nodos) :: k < indice
      ensures indice in nodos && nodos == old(nodos)[indice := nodos[indice]] && fresh(nodos[indice])
      ensures nodos[indice].valor == valor
      ensures nodos[indice].izquierdo == null && nodos[indice].derecho == null
    {
      var nuevo := new Nodo.Leaf(valor, ids);
      nodos := nodos[nuevo.indice := nuevo];
      indice := nuevo.indice;
    }

    /** obtenerNodo: null for every id never handed out, 0 included. */
    function ObtenerNodo(indice: int): (n: Nodo?)
      reads this, ids
      requires Valid()
      ensures indice < 1 || indice > ids.count ==> n == null
      ensures (n != null) == (indice in nodos)
      ensures n != null ==> n.indice == indice && n == nodos[indice]
    {
      Lookup(nodos, indice)
    }

    /** imprimirArbol: the printed lines of the tree rooted at `indice`. */
    function ImprimirArbol(indice: int): (lines: seq<string>)
      reads this, ids
      requires Valid()
      ensures |lines| == Size(ObtenerNodo(indice))
      ensures lines == RenderLines(Reverse(InOrder(ObtenerNodo(indice), 0)))
    {
      var raiz := ObtenerNodo(indice);
      PrintTreeSize(raiz, 0);
      PrintTreeIsReversedInOrder(raiz, 0);
      RenderLines(PrintTree(raiz, 0))
    }
  }

  /** One line of the tree print: depth, tag and id. */
  datatype PrintLine = PrintLine(nivel: nat, valor: string, indice: nat)

  function Indent(nivel: nat): (s: string)
    ensures |s| == 4 * nivel
    ensures forall i | 0 <= i < |s| :: s[i] == ' '
  {
    if nivel == 0 then "" else "    " + Indent(nivel - 1)
  }

  function RenderLine(l: PrintLine): string {
    Indent(l.nivel) + l.valor + " (" + NatToString(l.indice) + ")"
  }

  function RenderLines(ls: seq<PrintLine>): (r: seq<string>)
    ensures |r| == |ls|
  {
    if ls == [] then [] else [RenderLine(ls[0])] + RenderLines(ls[1..])
  }

  function Size(n: Nodo?): nat
    requires n != null ==> n.Valid()
    decreases if n == null then 0 else n.indice
  {
    if n == null then 0 else Size(n.izquierdo) + 1 + Size(n.derecho)
  }

  /** imprimirRecursivo: right subtree, this node at `nivel`, left subtree,
      children one level deeper. */
  function PrintTree(n: Nodo?, nivel: nat): seq<PrintLine>
    requires n != null ==> n.Valid()
    decreases if n == null then 0 else n.indice
  {
    if n == null then []
    else PrintTree(n.derecho, nivel + 1) + [PrintLine(nivel, n.valor, n.indice)] + PrintTree(n.izquierdo, nivel + 1)
  }

  /** Independent reference: the usual in-order walk (left, node, right). */
  function InOrder(n: Nodo?, nivel: nat): seq<PrintLine>
    requires n != null ==> n.Valid()
    decreases if n == null then 0 else n.indice
  {
    if n == null then []
    else InOrder(n.izquierdo, nivel + 1) + [PrintLine(nivel, n.valor, n.indice)] + InOrder(n.derecho, nivel + 1)
  }

  function Reverse<T>(s: seq<T>): (r: seq<T>)
    ensures |r| == |s|
  {
    if s == [] then [] else Reverse(s[1..]) + [s[0]]
  }

  lemma {:induction false} ReverseConcat<T>(a: seq<T>, b: seq<T>)
    ensures Reverse(a + b) == Reverse(b) + Reverse(a)
  {
    if a == [] {
      assert a + b == b;
    } else {
      assert (a + b)[1..] == a[1..] + b;
      ReverseConcat(a[1..], b);
    }
  }

  /** The print lists the nodes in exactly the reverse of in-order. */
  lemma {:induction false} PrintTreeIsReversedInOrder(n: Nodo?, nivel: nat)
    requires n != null ==> n.Valid()
    ensures PrintTree(n, nivel) == Reverse(InOrder(n, nivel))
    decreases if n == null then 0 else n.indice
  {
    if n != null {
      var l := InOrder(n.izquierdo, nivel + 1);
      var m := [PrintLine(nivel, n.valor, n.indice)];
      var r := InOrder(n.derecho, nivel + 1);
      PrintTreeIsReversedInOrder(n.izquierdo, nivel + 1);
      PrintTreeIsReversedInOrder(n.derecho, nivel + 1);
      ReverseConcat(l + m, r);
      ReverseConcat(l, m);
      assert Reverse(m) == m;
    }
  }

  /** One line per node; the node itself sits after its whole right subtree,
      at the starting level, and every other line is deeper. */
  lemma {:induction false} PrintTreeSize(n: Nodo?, nivel: nat)
    requires n != null ==> n.Valid()
    ensures |PrintTree(n, nivel)| == Size(n)
    ensures n != null ==> PrintTree(n, nivel)[Size(n.derecho)] == PrintLine(nivel, n.valor, n.indice)
    ensures forall i :: 0 <= i < Size(n) ==> PrintTree(n, nivel)[i].nivel >= nivel
    ensures n != null ==> forall i :: 0 <= i < Size(n) && i != Size(n.derecho) ==> PrintTree(n, nivel)[i].nivel > nivel
    decreases if n == null then 0 else n.indice
  {
    if n != null {
      PrintTreeSize(n.izquierdo, nivel + 1);
      PrintTreeSize(n.derecho, nivel + 1);
      var a, b := PrintTree(n.derecho, nivel + 1), PrintTree(n.izquierdo, nivel + 1);
      var m := [PrintLine(nivel, n.valor, n.indice)];
      assert PrintTree(n, nivel) == a + m + b;
      forall i | 0 <= i < Size(n)
        ensures PrintTree(n, nivel)[i].nivel >= nivel
        ensures i != Size(n.derecho) ==> PrintTree(n, nivel)[i].nivel > nivel
      {
        if i < |a| { assert PrintTree(n, nivel)[i] == a[i]; }
        else if i > |a| { assert PrintTree(n, nivel)[i] == b[i - |a| - 1]; }
      }
    }
  }
}

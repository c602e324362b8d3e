/** The fixed frame `generateAssembler` wraps around the statement code:
    the data-section header, one declaration per symbol-table entry, the
    compiler's own variables, and the code-section header and footer. */
module AsmProgram {
  import opened Decimal
  import opened SymbolTable
  import opened AsmText
  import opened AsmSpec

  /** `genUserVars` gives an entry without a type the FLOAT type. */
  function Coerced(e: SymbolEntry): (r: SymbolEntry)
    ensures r.dataType.Some? && r.name == e.name && r.value == e.value && r.length == e.length
    ensures e.dataType.Some? ==> r == e
    ensures e.dataType.None? ==> r.dataType == Some(FloatType)
  {
    if e.dataType.None? then e.(dataType := Some(FloatType)) else e
  }

  /** The table after `genUserVars`: the same keys, untyped entries typed FLOAT. */
  function CoerceAll(table: map<string, SymbolEntry>): (r: map<string, SymbolEntry>)
    ensures r.Keys == table.Keys
    ensures forall k | k in table :: r[k] == Coerced(table[k])
  {
    map k | k in table :: Coerced(table[k])
  }

  /** The storage directive of `genUserVars`' switch. */
  function DeclInit(t: DataType): string {
    match t
    case IntegerType => "DD 0"
    case FloatType => "DD 0.0"
    case StringType => "DB 256 DUP (?)"
    case _ => "DD 0.0"
  }

  /** The declaration of one table entry, named by its key. */
  function UserDecl(key: string, e: SymbolEntry): Line {
    Decl(Var(key), DeclInit(Coerced(e).dataType.value))
  }

  /** The declarations of the entries, in the order the table is iterated. */
  function UserDecls(order: seq<string>, table: map<string, SymbolEntry>): (r: seq<Line>)
    requires forall k | k in order :: k in table
    ensures |r| == |order|
    ensures forall i | 0 <= i < |order| :: r[i] == UserDecl(order[i], table[order[i]])
  {
    if order == [] then [] else [UserDecl(order[0], table[order[0]])] + UserDecls(order[1..], table)
  }

  /** `order` visits every key of `table` exactly once. */
  ghost predicate Enumerates(order: seq<string>, table: map<string, SymbolEntry>) {
    && (forall i, j | 0 <= i < j < |order| :: order[i] != order[j])
    && (forall k :: k in order <==> k in table)
  }

  /** One declaration per entry: every key is declared, with the directive
      its (coerced) type selects, by exactly one line, and nothing else is
      declared. */
  lemma UserDeclsOnePerEntry(order: seq<string>, table: map<string, SymbolEntry>)
    requires Enumerates(order, table)
    ensures |UserDecls(order, table)| == |table|
    ensures forall k | k in table :: UserDecl(k, table[k]) in UserDecls(order, table)
    ensures forall ln | ln in UserDecls(order, table) :: ln.Decl? && ln.x.Var? && ln.x.id in table
    ensures var u := UserDecls(order, table);
      forall i, j | 0 <= i < j < |u| :: u[i].x != u[j].x
  {
    UserDeclsCount(order, table);
    UserDeclsCover(order, table);
    UserDeclsForm(order, table);
  }

  lemma UserDeclsCount(order: seq<string>, table: map<string, SymbolEntry>)
    requires Enumerates(order, table)
    ensures |UserDecls(order, table)| == |table|
  {
    assert (set k | k in order) == table.Keys;
    DistinctCard(order);
  }

  lemma UserDeclsCover(order: seq<string>, table: map<string, SymbolEntry>)
    requires Enumerates(order, table)
    ensures forall k | k in table :: UserDecl(k, table[k]) in UserDecls(order, table)
  {
    var u := UserDecls(order, table);
    forall k | k in table
      ensures UserDecl(k, table[k]) in u
    {
      var i :| 0 <= i < |order| && order[i] == k;
      assert u[i] == UserDecl(k, table[k]);
    }
  }

  lemma UserDeclsForm(order: seq<string>, table: map<string, SymbolEntry>)
    requires Enumerates(order, table)
    ensures forall ln | ln in UserDecls(order, table) :: ln.Decl? && ln.x.Var? && ln.x.id in table
    ensures var u := UserDecls(order, table);
      forall i, j | 0 <= i < j < |u| :: u[i].x != u[j].x
  {
    var u := UserDecls(order, table);
    assert forall i | 0 <= i < |u| :: u[i].x == Var(order[i]) && order[i] in order;
  }

  /** A sequence without repetitions has as many elements as its set. */
  lemma {:induction false} DistinctCard(s: seq<string>)
    requires forall i, j | 0 <= i < j < |s| :: s[i] != s[j]
    ensures |(set x | x in s)| == |s|
  {
    if s != [] {
      DistinctCard(s[1..]);
      assert (set x | x in s) == (set x | x in s[1..]) + {s[0]};
      assert s[0] !in s[1..];
    }
  }

  const DataHeader := [Text("; *************** SECCION DE DATOS ***************"), Text(".MODEL LARGE"),
    Text(".386"), Text(".STACK 200h"), Blank, Text(".DATA"), Blank]

  /** `@c`, `@sum`, `@mult` and `@aux`, with the source's column padding. */
  const CompilerVars := [Text("@c    DD 0.0"), Text("@sum  DD 0.0"), Text("@mult DD 1.0"), Text("@aux  DD 0.0")]

  const CodeHeader := [Text("; *************** SECCION DE CODIGO ***************"), Text(".CODE"), Blank,
    Text("mov AX,@DATA"), Text("mov DS,AX"), Text("mov ES,AX"), Blank]

  const CodeFooter := [Blank, Text("; Fin del programa"), Text("mov ax,4c00h"), Text("int 21h"), Text("End")]

  /** The whole data section: header, user variables and the blank line
      after them, compiler variables, then what the statements declared. */
  function ProgramData(order: seq<string>, table: map<string, SymbolEntry>, stmt: Out): seq<Line>
    requires forall k | k in order :: k in table
  {
    DataHeader + (UserDecls(order, table) + [Blank]) + CompilerVars + stmt.data
  }

  function ProgramCode(stmt: Out): seq<Line> {
    CodeHeader + stmt.code + CodeFooter
  }

  /** The frame lines are plain text: no declaration, label, jump or operand. */
  lemma FramePlain()
    ensures forall ln | ln in DataHeader + CompilerVars + [Blank] :: ln.Text?
    ensures forall ln | ln in CodeHeader + CodeFooter :: ln.Text?
  {
  }
}

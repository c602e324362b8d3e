/** `SymbolTableManager`: the name-keyed table of declared symbols, with the
    `DataType` enumeration and an abstract `SymbolEntry`. */
module SymbolTable {
  import opened Decimal

  datatype DataType =
    | IntegerType | FloatType | StringType
    | IntegerCons | FloatCons | StringCons
    | Id
  {
    /** The display name each enumeration constant carries. */
    function Name(): string {
      match this
      case IntegerType => "Int"
      case FloatType => "Float"
      case StringType => "String"
      case IntegerCons => "INT_CTE"
      case FloatCons => "FLOAT_CTE"
      case StringCons => "STRING_CTE"
      case Id => "IDENTIFIER"
    }
  }

  /** A table entry; `dataType` is None where the source holds null. */
  datatype SymbolEntry = SymbolEntry(name: string, dataType: Option<DataType>, value: Option<string>, length: int)

  /** `replace(" ", "_")`. */
  function Normalize(s: string): (r: string)
    ensures |r| == |s|
    ensures forall i :: 0 <= i < |s| ==> r[i] == (if s[i] == ' ' then '_' else s[i])
  {
    if s == [] then [] else [if s[0] == ' ' then '_' else s[0]] + Normalize(s[1..])
  }

  /** A normalized name holds no space, normalizing twice changes nothing,
      and exactly the space-free names are left as they are. */
  lemma NormalizeProperties(s: string)
    ensures ' ' !in Normalize(s)
    ensures Normalize(Normalize(s)) == Normalize(s)
    ensures (Normalize(s) == s) <==> ' ' !in s
  {
  }

  class SymbolTableManager {
    var symbolTable: map<string, SymbolEntry>

    /** Every key is the normalized name of the entry stored under it. */
    ghost predicate Valid()
      reads this
    {
      forall k | k in symbolTable :: Normalize(symbolTable[k].name) == k
    }

    constructor ()
      ensures Valid() && symbolTable == map[]
    {
      symbolTable := map[];
    }

    /** insertInTable: store under the normalized name, replacing any entry
        already there, touching no other key. */
    method InsertInTable(entry: SymbolEntry)
      requires Valid()
      modifies this
      ensures Valid()
      ensures symbolTable == old(symbolTable)[Normalize(entry.name) := entry]
    {
      symbolTable := symbolTable[Normalize(entry.name) := entry];
    }

    /** setDataTypeInTable: the entry under `key` gets the new type. The source
        dereferences the lookup result, so an absent key throws before any
        change; that path is `found == false` with the table unchanged. */
    method SetDataTypeInTable(key: string, dataType: DataType) returns (found: bool)
      requires Valid()
      modifies this
      ensures Valid()
      ensures found == (key in old(symbolTable))
      ensures found ==> symbolTable == old(symbolTable)[key := old(symbolTable)[key].(dataType := Some(dataType))]
      ensures !found ==> symbolTable == old(symbolTable)
    {
      found := key in symbolTable;
      if found {
        symbolTable := symbolTable[key := symbolTable[key].(dataType := Some(dataType))];
      }
    }

    /** removeFromTable: normalize, then drop that key if present. */
    method RemoveFromTable(entryName: string)
      requires Valid()
      modifies this
      ensures Valid()
      ensures symbolTable == old(symbolTable) - {Normalize(entryName)}
      ensures Normalize(entryName) !in old(symbolTable) ==> symbolTable == old(symbolTable)
    {
      var key := Normalize(entryName);
      if key in symbolTable {
        symbolTable := symbolTable - {key};
      }
    }

    /** existsInTable tests the raw name: a name with a space is never found. */
    function ExistsInTable(entryName: string): (r: bool)
      reads this
      requires Valid()
      ensures r <==> entryName in symbolTable
      ensures r ==> ' ' !in entryName
    {
      if entryName in symbolTable then
        NormalizeProperties(symbolTable[entryName].name);
        true
      else false
    }
  }

  /** After inserting an entry whose name has no space, that name exists. */
  lemma InsertThenExists(old_table: map<string, SymbolEntry>, entry: SymbolEntry)
    requires ' ' !in entry.name
    ensures entry.name in old_table[Normalize(entry.name) := entry]
  {
    NormalizeProperties(entry.name);
  }
}

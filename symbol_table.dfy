/**
 * The Hack assembler's symbol table (06/Assembler/symbol_table.py): a
 * dictionary from symbols to addresses, created with the predefined symbols
 * of the Hack platform, and the address the next new variable gets.
 */
module AsmSymbols {
  import opened Results
  import opened PyStrings

  /** The named predefined symbols: the VM pointers and the memory-mapped devices. */
  const Predefined: map<string, int> := map[
    "SP" := 0, "LCL" := 1, "ARG" := 2, "THIS" := 3, "THAT" := 4,
    "SCREEN" := 16384, "KBD" := 24576]

  /** The first RAM address after the sixteen virtual registers. */
  const FirstVariableAddress := 16

  /** `R<i>` names RAM address `i`. */
  function RegisterName(i: nat): (r: string)
    ensures |r| >= 2 && r[0] == 'R'
  {
    "R" + IntToString(i)
  }

  /** The table after the first `n` rounds of the constructor's loop over `R0`, `R1`, .... */
  function TableWithRegisters(n: nat): map<string, int>
    requires n <= 16
  {
    if n == 0 then Predefined else TableWithRegisters(n - 1)[RegisterName(n - 1) := n - 1]
  }

  /** The table a new `SymbolTable` holds. */
  function InitialTable(): map<string, int> {
    TableWithRegisters(16)
  }

  lemma {:induction false} RegisterNamesDiffer(i: nat, j: nat)
    requires i != j
    ensures RegisterName(i) != RegisterName(j)
  {
    if RegisterName(i) == RegisterName(j) {
      assert IntToString(i) == RegisterName(i)[1..] == RegisterName(j)[1..] == IntToString(j);
      IntToStringInjective(i, j);
    }
  }

  lemma {:induction false} RegisterNotPredefined(i: nat)
    ensures RegisterName(i) !in Predefined
  {
    var r := RegisterName(i);
    assert r[0] == 'R';
  }

  /**
   * The registers and the predefined symbols are all in the table with their
   * addresses, and nothing else is.
   */
  lemma {:induction false} TableWithRegistersContents(n: nat)
    requires n <= 16
    ensures forall s :: s in Predefined ==> s in TableWithRegisters(n) && TableWithRegisters(n)[s] == Predefined[s]
    ensures forall i: nat :: i < n ==> RegisterName(i) in TableWithRegisters(n) && TableWithRegisters(n)[RegisterName(i)] == i
    ensures forall s :: s in TableWithRegisters(n) ==> s in Predefined || exists i: nat :: i < n && s == RegisterName(i)
  {
    forall s | s in Predefined
      ensures s in TableWithRegisters(n) && TableWithRegisters(n)[s] == Predefined[s]
    {
      PredefinedKept(n, s);
    }
    forall i: nat | i < n
      ensures RegisterName(i) in TableWithRegisters(n) && TableWithRegisters(n)[RegisterName(i)] == i
    {
      RegisterBound(n, i);
    }
    forall s | s in TableWithRegisters(n)
      ensures s in Predefined || exists i: nat :: i < n && s == RegisterName(i)
    {
      OnlyPredefinedOrRegister(n, s);
    }
  }

  lemma {:induction false} PredefinedKept(n: nat, s: string)
    requires n <= 16 && s in Predefined
    ensures s in TableWithRegisters(n) && TableWithRegisters(n)[s] == Predefined[s]
  {
    if n > 0 {
      PredefinedKept(n - 1, s);
      RegisterNotPredefined(n - 1);
    }
  }

  lemma {:induction false} RegisterBound(n: nat, i: nat)
    requires i < n <= 16
    ensures RegisterName(i) in TableWithRegisters(n) && TableWithRegisters(n)[RegisterName(i)] == i
  {
    if i < n - 1 {
      RegisterBound(n - 1, i);
      RegisterNamesDiffer(i, n - 1);
    }
  }

  lemma {:induction false} OnlyPredefinedOrRegister(n: nat, s: string)
    requires n <= 16 && s in TableWithRegisters(n)
    ensures s in Predefined || exists i: nat :: i < n && s == RegisterName(i)
  {
    if n > 0 && s != RegisterName(n - 1) {
      OnlyPredefinedOrRegister(n - 1, s);
    }
  }

  /** The initial table: `SP`..`THAT`, `SCREEN`, `KBD` and `R0`..`R15` with their addresses, and nothing else. */
  lemma {:induction false} InitialTableContents()
    ensures forall s :: s in Predefined ==> s in InitialTable() && InitialTable()[s] == Predefined[s]
    ensures forall i: nat :: i < 16 ==> RegisterName(i) in InitialTable() && InitialTable()[RegisterName(i)] == i
    ensures forall s :: s in InitialTable() ==> s in Predefined || exists i: nat :: i < 16 && s == RegisterName(i)
  {
    TableWithRegistersContents(16);
  }

  /** Every predefined address lies below the first variable address, or is a device map. */
  lemma {:induction false} InitialAddressesReserved(s: string)
    requires s in InitialTable()
    ensures 0 <= InitialTable()[s] < FirstVariableAddress || InitialTable()[s] == 16384 || InitialTable()[s] == 24576
  {
    InitialTableContents();
    if s in Predefined {
      PredefinedAddresses(s);
    } else {
      var i: nat :| i < 16 && s == RegisterName(i);
    }
  }

  lemma {:induction false} PredefinedAddresses(s: string)
    requires s in Predefined
    ensures 0 <= Predefined[s] < FirstVariableAddress || Predefined[s] == 16384 || Predefined[s] == 24576
  {
  }

  /** `SymbolTable`. */
  class SymbolTable {
    var table: map<string, int>
    var nextVariableAddress: int

    /** `SymbolTable.__init__`: the predefined symbols, then `R0`..`R15` added one by one. */
    constructor ()
      ensures table == InitialTable() && nextVariableAddress == FirstVariableAddress
    {
      table := Predefined;
      new;
      for i := 0 to 16
        invariant table == TableWithRegisters(i)
      {
        table := table[RegisterName(i) := i];
      }
      nextVariableAddress := FirstVariableAddress;
    }

    /** `addEntry`: binds the symbol, replacing any earlier binding. */
    method AddEntry(symbol: string, address: int)
      modifies this`table
      ensures table == old(table)[symbol := address]
    {
      table := table[symbol := address];
    }

    /** `contains`. */
    function Contains(symbol: string): (b: bool)
      reads this
      ensures b <==> symbol in table
    {
      symbol in table
    }

    /** `getAddress`: a symbol not in the table is a KeyError. */
    function GetAddress(symbol: string): (r: Result<int>)
      reads this
      ensures r.Ok? <==> symbol in table
      ensures r.Ok? ==> r.value == table[symbol]
      ensures r.Err? ==> r.error == KeyError
    {
      if symbol in table then Ok(table[symbol]) else Err(KeyError)
    }

    /** `getNextVariableAddress`. */
    function GetNextVariableAddress(): (r: int)
      reads this
      ensures r == nextVariableAddress
    {
      nextVariableAddress
    }

    /** `incrementNextVariableAddress`. */
    method IncrementNextVariableAddress()
      modifies this`nextVariableAddress
      ensures nextVariableAddress == old(nextVariableAddress) + 1
    {
      nextVariableAddress := nextVariableAddress + 1;
    }
  }
}

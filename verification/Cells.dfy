/** The cell model of Nervos CKB, as far as the transaction builder sees it. Scripts are identified with
    their hashes: hashing is injective and never yields the zero hash. */
module Cells {
  import opened Words
  import opened Wrappers
  import LittleEndian

  type Hash = nat
  const ZERO_HASH: Hash := 0
  type Script = h: Hash | h != ZERO_HASH witness 1
  type Bytes = seq<LittleEndian.byte>

  datatype OutPoint = OutPoint(txHash: nat, index: nat)
  datatype CellOutput = CellOutput(capacity: uint64, lock: Script, typ: Option<Script>)
  datatype Cell = Cell(output: CellOutput, data: Bytes)
  datatype TransactionInput = TransactionInput(outPoint: OutPoint, cell: Cell)

  /** The UDT amount used for balancing: only the low 8 of the 16 bytes are read. */
  function UdtAmount(data: Bytes): uint64 {
    if |data| >= 8 then LittleEndian.UnpackUint64(data) else 0
  }

  function IsUdt(known: set<Script>, output: CellOutput): bool {
    output.typ.Some? && output.typ.value in known
  }

  /** What one cell holds of an asset; the zero hash stands for CKBytes. */
  function Holding(known: set<Script>, h: Hash, cell: Cell): uint64 {
    if h == ZERO_HASH then cell.output.capacity
    else if IsUdt(known, cell.output) && cell.output.typ.value == h then UdtAmount(cell.data)
    else 0
  }

  /** The unbounded total of an asset over a sequence of cells. */
  function Total(known: set<Script>, h: Hash, cells: seq<Cell>): nat {
    if cells == [] then 0
    else Total(known, h, cells[..|cells| - 1]) + Holding(known, h, cells[|cells| - 1])
  }

  lemma {:induction false} TotalAppend(known: set<Script>, h: Hash, cells: seq<Cell>, c: Cell)
    ensures Total(known, h, cells + [c]) == Total(known, h, cells) + Holding(known, h, c)
  {
    assert (cells + [c])[..|cells|] == cells;
  }

  lemma {:induction false} TotalConcat(known: set<Script>, h: Hash, a: seq<Cell>, b: seq<Cell>)
    ensures Total(known, h, a + b) == Total(known, h, a) + Total(known, h, b)
  {
    if b == [] {
      assert a + b == a;
    } else {
      var n := |b| - 1;
      TotalConcat(known, h, a, b[..n]);
      assert (a + b)[..|a + b| - 1] == a + b[..n];
    }
  }

  lemma {:induction false} TotalMonotone(known: set<Script>, h: Hash, cells: seq<Cell>, n: nat)
    requires n <= |cells|
    ensures Total(known, h, cells[..n]) <= Total(known, h, cells)
  {
    if n == |cells| {
      assert cells[..n] == cells;
    } else {
      TotalMonotone(known, h, cells[..|cells| - 1], n);
      assert cells[..|cells| - 1][..n] == cells[..n];
    }
  }

  /** The assets that appear in a sequence of cells. */
  function Present(known: set<Script>, cells: seq<Cell>): (s: set<Hash>)
    ensures forall h :: h in s ==> h == ZERO_HASH || h in known
    ensures cells != [] <==> ZERO_HASH in s
  {
    if cells == [] then {}
    else
      var c := cells[|cells| - 1];
      Present(known, cells[..|cells| - 1]) + {ZERO_HASH} + (if IsUdt(known, c.output) then {c.output.typ.value} else {})
  }

  lemma {:induction false} PresentAppend(known: set<Script>, cells: seq<Cell>, c: Cell)
    ensures Present(known, cells + [c]) ==
            Present(known, cells) + {ZERO_HASH} + (if IsUdt(known, c.output) then {c.output.typ.value} else {})
  {
    assert (cells + [c])[..|cells|] == cells;
  }

  lemma {:induction false} AbsentTotal(known: set<Script>, h: Hash, cells: seq<Cell>)
    requires h !in Present(known, cells)
    ensures Total(known, h, cells) == 0
  {
    if cells != [] {
      AbsentTotal(known, h, cells[..|cells| - 1]);
    }
  }

  /** Output i of a transaction together with its data. */
  function OutputCells(outputs: seq<CellOutput>, data: seq<Bytes>): (cells: seq<Cell>)
    requires |outputs| == |data|
    ensures |cells| == |outputs|
  {
    seq(|outputs|, i requires 0 <= i < |outputs| => Cell(outputs[i], data[i]))
  }

  lemma {:induction false} OutputCellsAppend(outputs: seq<CellOutput>, data: seq<Bytes>, o: CellOutput, d: Bytes)
    requires |outputs| == |data|
    ensures OutputCells(outputs + [o], data + [d]) == OutputCells(outputs, data) + [Cell(o, d)]
  {}
}

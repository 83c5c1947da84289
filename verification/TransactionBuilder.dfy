/** transaction/transaction.go: PerunTransactionBuilder. It keeps inputs, outputs, output data, witnesses, script
    groups and two change-cell tables in step while it completes a partly built transaction. */
module TransactionBuilding {
  import opened Words
  import opened Wrappers
  import opened Cells
  import opened AssetTotals
  import opened ScriptGroups

  datatype BuildError =
    | NoIterator
    | EmptyIterator
    | NoScriptGroup
    | NilCell          // the iterator claimed a next cell but had none: Go dereferences nil and panics
    | NotLive
    | NotEnoughFunds
    | ChangeBelowFee

  datatype Direction = InputDir | OutputDir | NoneDir

  /** What an iterator still holds; None is a `nil` cell. */
  type CellStream = seq<Option<TransactionInput>>

  function CellsOf(taken: seq<TransactionInput>): (cells: seq<Cell>)
    ensures |cells| == |taken|
  {
    if taken == [] then [] else CellsOf(taken[..|taken| - 1]) + [taken[|taken| - 1].cell]
  }

  function OutPointsOf(taken: seq<TransactionInput>): (ops: seq<OutPoint>)
    ensures |ops| == |taken|
  {
    if taken == [] then [] else OutPointsOf(taken[..|taken| - 1]) + [taken[|taken| - 1].outPoint]
  }

  /** The stream that yields exactly these cells. */
  function StreamOf(taken: seq<TransactionInput>): (stream: CellStream)
    ensures |stream| == |taken|
  {
    if taken == [] then [] else StreamOf(taken[..|taken| - 1]) + [Some(taken[|taken| - 1])]
  }

  lemma {:induction false} TakenAppend(taken: seq<TransactionInput>, t: TransactionInput)
    ensures CellsOf(taken + [t]) == CellsOf(taken) + [t.cell]
    ensures OutPointsOf(taken + [t]) == OutPointsOf(taken) + [t.outPoint]
    ensures StreamOf(taken + [t]) == StreamOf(taken) + [Some(t)]
    ensures (taken + [t])[..|taken|] == taken
  {
    assert (taken + [t])[..|taken|] == taken;
  }

  predicate Live(live: map<OutPoint, Cell>, ops: seq<OutPoint>) {
    forall i :: 0 <= i < |ops| ==> ops[i] in live
  }

  function Resolve(live: map<OutPoint, Cell>, ops: seq<OutPoint>): (cells: seq<Cell>)
    requires Live(live, ops)
    ensures |cells| == |ops|
  {
    if ops == [] then [] else Resolve(live, ops[..|ops| - 1]) + [live[ops[|ops| - 1]]]
  }

  lemma {:induction false} ResolveAppend(live: map<OutPoint, Cell>, ops: seq<OutPoint>, op: OutPoint)
    requires op in live
    ensures Live(live, ops + [op]) <==> Live(live, ops)
    ensures Live(live, ops) ==> Resolve(live, ops + [op]) == Resolve(live, ops) + [live[op]]
  {
    var all := ops + [op];
    assert all[..|ops|] == ops;
    assert forall i :: 0 <= i < |ops| ==> all[i] == ops[i];
  }

  function OutputsOf(cells: seq<Cell>): (outs: seq<CellOutput>)
    ensures |outs| == |cells|
  {
    if cells == [] then [] else OutputsOf(cells[..|cells| - 1]) + [cells[|cells| - 1].output]
  }

  lemma {:induction false} OutputsAppend(cells: seq<Cell>, c: Cell)
    ensures OutputsOf(cells + [c]) == OutputsOf(cells) + [c.output]
  {
    assert (cells + [c])[..|cells|] == cells;
  }

  /** The type script of the cells an iterator registered under h is meant to provide. */
  function KeyType(h: Hash): Option<Script> {
    if h == ZERO_HASH then None else Some(h)
  }

  /** The parts of a transaction that must stay in step. */
  datatype TxBody = TxBody(inputs: seq<OutPoint>, outputs: seq<CellOutput>, data: seq<Bytes>, spareWitnesses: int)

  /** What the loop over the UDTs starts from: the UDTs it visits, what is provided and wanted of each, which of them
      can be funded, the CKBytes their iterators hold and their change cells need, and bounds for CKBytes overall. */
  datatype Plan = Plan(all: set<Hash>, given: map<Script, uint64>, wanted: map<Script, uint64>, could: set<Hash>,
                       stocks: map<Hash, nat>, rents: map<Hash, nat>, inCkb: nat, dueCkb: nat, pure: bool, room: bool) {
    predicate For(known: set<Script>) {
      given.Keys == wanted.Keys == known && all == stocks.Keys == rents.Keys <= known
    }
  }

  class PerunTransactionBuilder {
    const knownUDTs: set<Script>
    const changeLock: Script
    const feeShannon: uint64
    /** types.CellOutput.OccupiedCapacity by lock, type and data length. */
    const occupied: (Script, Option<Script>, nat) -> uint64
    /** The chain as the live-cell fetcher reports it. */
    const live: map<OutPoint, Cell>

    var iterators: map<Hash, CellStream>
    var inputs: seq<OutPoint>
    var outputs: seq<CellOutput>
    var outputsData: seq<Bytes>
    var witnesses: seq<Bytes>
    var scriptGroups: seq<ScriptGroup>
    var scriptGroupMap: map<Script, nat>
    var ckbChangeCellIndex: int
    var udtChangeCellIndices: map<Script, int>

    constructor (knownUDTs: set<Script>, changeLock: Script, feeShannon: uint64,
                 occupied: (Script, Option<Script>, nat) -> uint64, live: map<OutPoint, Cell>,
                 iterators: map<Hash, CellStream>)
      requires forall h :: h in iterators ==> StreamAgrees(live, iterators[h])
      ensures Valid() && Unbalanced() && inputs == [] && outputs == [] && outputsData == [] && witnesses == []
      ensures scriptGroups == [] && scriptGroupMap == map[] && AllLive() && GroupsExact()
      ensures this.knownUDTs == knownUDTs && this.changeLock == changeLock && this.feeShannon == feeShannon
      ensures this.occupied == occupied && this.live == live && this.iterators == iterators
    {
      this.knownUDTs, this.changeLock, this.feeShannon := knownUDTs, changeLock, feeShannon;
      this.occupied, this.live, this.iterators := occupied, live, iterators;
      inputs, outputs, outputsData, witnesses := [], [], [], [];
      scriptGroups, scriptGroupMap := [], map[];
      ckbChangeCellIndex := -1;
      udtChangeCellIndices := map u | u in knownUDTs :: -1;
    }

    /** An iterator reports the cells the chain holds. */
    static predicate Agrees(live: map<OutPoint, Cell>, t: Option<TransactionInput>) {
      t.Some? ==> t.value.outPoint in live && live[t.value.outPoint] == t.value.cell
    }

    static predicate StreamAgrees(live: map<OutPoint, Cell>, stream: CellStream) {
      forall t :: t in stream ==> Agrees(live, t)
    }

    ghost predicate StreamsAgree()
      reads `iterators
    {
      forall h :: h in iterators ==> StreamAgrees(live, iterators[h])
    }

    ghost predicate GroupsIndexed()
      reads `scriptGroupMap, `scriptGroups
    {
      forall h :: h in scriptGroupMap ==> scriptGroupMap[h] < |scriptGroups|
    }

    ghost predicate ChangeTablesIndexed()
      reads `outputs, `outputsData, `ckbChangeCellIndex, `udtChangeCellIndices
    {
      && |outputs| == |outputsData|
      && -1 <= ckbChangeCellIndex < |outputs|
      && udtChangeCellIndices.Keys == knownUDTs
      && forall u :: u in udtChangeCellIndices ==> -1 <= udtChangeCellIndices[u] < |outputs|
    }

    ghost predicate Valid()
      reads this
    {
      StreamsAgree() && GroupsIndexed() && ChangeTablesIndexed()
    }

    /** No change cell has been added yet; balanceTransaction is to be called once, in this state. */
    ghost predicate Unbalanced()
      reads `ckbChangeCellIndex, `udtChangeCellIndices
    {
      ckbChangeCellIndex == -1 && forall u :: u in udtChangeCellIndices ==> udtChangeCellIndices[u] == -1
    }

    predicate AllLive()
      reads `inputs
    {
      Live(live, inputs)
    }

    function InCells(): seq<Cell>
      requires AllLive()
      reads `inputs
    {
      Resolve(live, inputs)
    }

    function OutCells(): seq<Cell>
      requires |outputs| == |outputsData|
      reads `outputs, `outputsData
    {
      OutputCells(outputs, outputsData)
    }

    function In64(h: Hash): uint64
      requires AllLive()
      reads `inputs
    {
      Expected(knownUDTs, h, InCells(), 0)
    }

    function Out64(h: Hash): uint64
      requires |outputs| == |outputsData|
      reads `outputs, `outputsData
    {
      Expected(knownUDTs, h, OutCells(), 0)
    }

    /** Output CKBytes and the fee: what the inputs have to provide. */
    function Due64(): uint64
      requires |outputs| == |outputsData|
      reads `outputs, `outputsData
    {
      Expected(knownUDTs, ZERO_HASH, OutCells(), feeShannon)
    }

    ghost predicate GroupsExact()
      reads `inputs, `outputs, `scriptGroups, `scriptGroupMap
    {
      AllLive() && Exact(scriptGroups, scriptGroupMap, Refs(OutputsOf(InCells())), Refs(outputs))
    }

    /** The cells of an iterator hold no known UDT but the one it is registered for. */
    static predicate StreamPure(known: set<Script>, h: Hash, stream: CellStream) {
      forall t :: t in stream && t.Some? && IsUdt(known, t.value.cell.output) ==> t.value.cell.output.typ.value == h
    }

    ghost predicate TypePure()
      reads `iterators
    {
      forall h :: h in iterators ==> StreamPure(knownUDTs, h, iterators[h])
    }

    /** The cells of an iterator carry the change lock and exactly the type they are registered for. */
    static predicate StreamMatches(lock: Script, h: Hash, stream: CellStream) {
      forall t :: t in stream && t.Some? ==> t.value.cell.output.lock == lock && t.value.cell.output.typ == KeyType(h)
    }

    ghost predicate FundingCellsMatch()
      reads `iterators
    {
      forall h :: h in iterators ==> StreamMatches(changeLock, h, iterators[h])
    }

    /** No out-point is listed twice, among the inputs or still to come from the iterators. */
    static predicate Separate(inputs: seq<OutPoint>, streams: map<Hash, CellStream>) {
      && (forall i, j :: 0 <= i < j < |inputs| ==> inputs[i] != inputs[j])
      && (forall h, i :: h in streams && 0 <= i < |streams[h]| && streams[h][i].Some? ==>
          streams[h][i].value.outPoint !in inputs)
      && (forall h, i, k, j ::
            h in streams && k in streams && 0 <= i < |streams[h]| && 0 <= j < |streams[k]| && (h != k || i < j) &&
            streams[h][i].Some? && streams[k][j].Some? ==>
              streams[h][i].value.outPoint != streams[k][j].value.outPoint)
    }

    static lemma {:induction false} StaysSeparate(inputs: seq<OutPoint>, streams: map<Hash, CellStream>, h: Hash)
      requires h in streams && streams[h] != [] && streams[h][0].Some? && Separate(inputs, streams)
      ensures Separate(inputs + [streams[h][0].value.outPoint], streams[h := streams[h][1..]])
    {
      var op := streams[h][0].value.outPoint;
      var more, rest := inputs + [op], streams[h := streams[h][1..]];
      assert forall k, i :: k in rest && 0 <= i < |rest[k]| ==>
                              rest[k][i] == if k == h then streams[k][i + 1] else streams[k][i];
      forall k, i | k in rest && 0 <= i < |rest[k]| && rest[k][i].Some? ensures rest[k][i].value.outPoint !in more {
        if k == h {
          assert streams[h][0].value.outPoint != streams[h][i + 1].value.outPoint;
        } else {
          assert streams[h][0].value.outPoint != streams[k][i].value.outPoint;
        }
      }
    }

    lemma {:induction false} AllDifferent()
      requires NothingTwice()
      ensures forall i, j :: 0 <= i < j < |inputs| ==> inputs[i] != inputs[j]
    {}

    predicate NothingTwice()
      reads `inputs, `iterators
    {
      Separate(inputs, iterators)
    }

    // ---------- script groups ----------

    function FindInGroup(h: Hash): Option<nat>
      reads `scriptGroupMap
    {
      if h in scriptGroupMap then Some(scriptGroupMap[h]) else None
    }

    /** The groups of the change lock and, for a UDT, of its type script. */
    function ScriptGroupsForHash(h: Hash): (Option<nat>, Option<nat>)
      reads `scriptGroupMap
    {
      (FindInGroup(changeLock), if h != ZERO_HASH then FindInGroup(h) else None)
    }

    static function AppendInputToGroups(groups: seq<ScriptGroup>, lock: nat, typ: Option<nat>,
                                        idx: nat): (g: seq<ScriptGroup>)
      requires lock < |groups| && (typ.Some? ==> typ.value < |groups|)
      ensures |g| == |groups|
    {
      var g := AppendInput(groups, lock, idx);
      if typ.Some? then AppendInput(g, typ.value, idx) else g
    }

    static function AppendOutputToGroups(groups: seq<ScriptGroup>, lock: nat, typ: Option<nat>,
                                         idx: nat): (g: seq<ScriptGroup>)
      requires lock < |groups| && (typ.Some? ==> typ.value < |groups|)
      ensures |g| == |groups|
    {
      var g := AppendOutput(groups, lock, idx);
      if typ.Some? then AppendOutput(g, typ.value, idx) else g
    }

    static lemma {:induction false} ExactInputCell(
      groups: seq<ScriptGroup>, index: map<Script, nat>, ins: seq<CellOutput>, outs: seq<Ref>, c: CellOutput, h: Hash)
      requires Exact(groups, index, Refs(ins), outs)
      requires c.lock in index && c.typ == KeyType(h) && (h != ZERO_HASH ==> h in index)
      ensures Exact(AppendInputToGroups(groups, index[c.lock], if h != ZERO_HASH then Some(index[h]) else None, |ins|),
                    index, Refs(ins + [c]), outs)
    {
      RefsAppend(ins, c);
      ExactAppendInput(groups, index, Refs(ins), outs, Ref(c.lock, |ins|));
      if h != ZERO_HASH {
        ExactAppendInput(AppendInput(groups, index[c.lock], |ins|), index, Refs(ins) + [Ref(c.lock, |ins|)], outs,
                         Ref(h, |ins|));
        assert Refs(ins) + [Ref(c.lock, |ins|)] + [Ref(h, |ins|)] == Refs(ins + [c]);
      } else {
        assert Refs(ins) + [Ref(c.lock, |ins|)] == Refs(ins + [c]);
      }
    }

    static lemma {:induction false} ExactOutputCell(
      groups: seq<ScriptGroup>, index: map<Script, nat>, ins: seq<Ref>, outs: seq<CellOutput>, c: CellOutput, h: Hash)
      requires Exact(groups, index, ins, Refs(outs))
      requires c.lock in index && c.typ == KeyType(h) && (h != ZERO_HASH ==> h in index)
      ensures Exact(AppendOutputToGroups(groups, index[c.lock],
                                         if h != ZERO_HASH then Some(index[h]) else None, |outs|),
                    index, ins, Refs(outs + [c]))
    {
      RefsAppend(outs, c);
      ExactAppendOutput(groups, index, ins, Refs(outs), Ref(c.lock, |outs|));
      if h != ZERO_HASH {
        ExactAppendOutput(AppendOutput(groups, index[c.lock], |outs|), index, ins, Refs(outs) + [Ref(c.lock, |outs|)],
                          Ref(h, |outs|));
        assert Refs(outs) + [Ref(c.lock, |outs|)] + [Ref(h, |outs|)] == Refs(outs + [c]);
      } else {
        assert Refs(outs) + [Ref(c.lock, |outs|)] == Refs(outs + [c]);
      }
    }

    // ---------- funding ----------

    static lemma {:induction false} ExactInput(
      groups: seq<ScriptGroup>, index: map<Script, nat>, live: map<OutPoint, Cell>, ops: seq<OutPoint>, outs: seq<Ref>,
      t: TransactionInput, h: Hash)
      requires Agrees(live, Some(t)) && Live(live, ops)
               && Exact(groups, index, Refs(OutputsOf(Resolve(live, ops))), outs)
      requires t.cell.output.lock in index && t.cell.output.typ == KeyType(h) && (h != ZERO_HASH ==> h in index)
      ensures Live(live, ops + [t.outPoint])
      ensures Exact(AppendInputToGroups(groups, index[t.cell.output.lock],
                                        if h != ZERO_HASH then Some(index[h]) else None, |ops|),
                    index, Refs(OutputsOf(Resolve(live, ops + [t.outPoint]))), outs)
    {
      ResolveAppend(live, ops, t.outPoint);
      OutputsAppend(Resolve(live, ops), t.cell);
      ExactInputCell(groups, index, OutputsOf(Resolve(live, ops)), outs, t.cell.output, h);
    }

    /** Adds one cell of iterator h as an input, with a dummy witness, to the groups of the change lock and of h. */
    method AddFundingInput(h: Hash, input: TransactionInput)
      requires GroupsIndexed() && Agrees(live, Some(input))
      requires changeLock in scriptGroupMap && (h != ZERO_HASH ==> h in scriptGroupMap)
      modifies this`inputs, this`witnesses, this`scriptGroups
      ensures GroupsIndexed()
      ensures inputs == old(inputs) + [input.outPoint] && witnesses == old(witnesses) + [[]]
      ensures old(GroupsExact()) && input.cell.output.lock == changeLock && input.cell.output.typ == KeyType(h) ==>
              GroupsExact()
    {
      hide Separate, Exact, Refs, Resolve, OutputsOf;
      var (lock, typ) := ScriptGroupsForHash(h);
      inputs := inputs + [input.outPoint];
      witnesses := witnesses + [[]];
      scriptGroups := AppendInputToGroups(scriptGroups, lock.value, typ, |inputs| - 1);
      if old(GroupsExact()) && input.cell.output.lock == changeLock && input.cell.output.typ == KeyType(h) {
        ExactInput(old(scriptGroups), scriptGroupMap, live, old(inputs), Refs(outputs), input, h);
      }
    }

    static predicate AllAgree(live: map<OutPoint, Cell>, taken: seq<TransactionInput>) {
      forall t :: t in taken ==> Agrees(live, Some(t))
    }

    /** Iterator h has yielded exactly `taken`; no other iterator moved. */
    ghost predicate Yielded(before: map<Hash, CellStream>, h: Hash, taken: seq<TransactionInput>)
      reads `iterators
    {
      h in before && h in iterators && before[h] == StreamOf(taken) + iterators[h]
        && iterators == before[h := iterators[h]]
    }

    static lemma {:induction false} YieldNext(live: map<OutPoint, Cell>, stream: CellStream,
                                              taken: seq<TransactionInput>, rest: CellStream)
      requires stream == StreamOf(taken) + rest && rest != [] && AllAgree(live, taken)
      ensures rest[0] in stream
      ensures rest[0].Some? && Agrees(live, rest[0]) ==>
                var t := rest[0].value;
                && stream == StreamOf(taken + [t]) + rest[1..] && AllAgree(live, taken + [t])
                && CellsOf(taken + [t]) == CellsOf(taken) + [t.cell]
                && OutPointsOf(taken + [t]) == OutPointsOf(taken) + [t.outPoint]
    {
      assert stream[|taken|] == rest[0];
      assert rest == [rest[0]] + rest[1..];
      if rest[0].Some? {
        TakenAppend(taken, rest[0].value);
      }
    }

    /** iterator.Next(): the cell the chain holds, and the rest stays as it was. */
    method NextCell(h: Hash) returns (next: Option<TransactionInput>)
      requires StreamsAgree() && h in iterators && iterators[h] != []
      modifies this`iterators
      ensures next == old(iterators[h][0]) && Agrees(live, next)
      ensures h in iterators && iterators == old(iterators)[h := old(iterators[h])[1..]]
      ensures StreamsAgree()
      ensures old(FundingCellsMatch()) ==>
                && FundingCellsMatch()
                && (next.Some? ==>
                      next.value.cell.output.lock == changeLock && next.value.cell.output.typ == KeyType(h))
    {
      next := iterators[h][0];
      assert next in iterators[h];
      iterators := iterators[h := iterators[h][1..]];
    }

    /** One turn of the funding loop: fetch the next cell and add it. */
    method TakeInput(h: Hash, funded: AssetInformation, ghost before: map<Hash, CellStream>,
                     ghost taken: seq<TransactionInput>)
      returns (error: Option<BuildError>, ghost extended: seq<TransactionInput>)
      requires StreamsAgree() && GroupsIndexed() && Yielded(before, h, taken) && iterators[h] != []
               && AllAgree(live, taken)
      requires funded.knownUDTs == knownUDTs && funded.Tracks(CellsOf(taken), 0)
      modifies this`iterators, this`inputs, this`witnesses, this`scriptGroups, funded
      ensures StreamsAgree() && GroupsIndexed()
      ensures error == Some(NoScriptGroup) <==>
              !(changeLock in scriptGroupMap && (h != ZERO_HASH ==> h in scriptGroupMap))
      ensures error == None || error == Some(NoScriptGroup) || (error == Some(NilCell) && None in before[h])
      ensures error == None ==>
                && extended != [] && extended[..|extended| - 1] == taken && AllAgree(live, extended)
                && Yielded(before, h, extended) && |iterators[h]| < old(|iterators[h]|)
                && funded.Tracks(CellsOf(extended), 0)
                && OutPointsOf(extended) == OutPointsOf(taken) + [extended[|taken|].outPoint]
                && inputs == old(inputs) + [extended[|taken|].outPoint] && witnesses == old(witnesses) + [[]]
      ensures error == None && old(GroupsExact() && FundingCellsMatch()) ==> GroupsExact()
      ensures old(FundingCellsMatch()) ==> FundingCellsMatch()
      ensures error == Some(NilCell) ==> old(iterators[h])[0] == None
      ensures error == None && old(NothingTwice()) ==> NothingTwice()
    {
      hide Separate, Exact, Refs, Resolve, OutputsOf, Expected, Total, AppendInputToGroups, StreamsAgree,
           FundingCellsMatch, GroupsExact, GroupsIndexed, AllAgree, Agrees, CellsOf, OutPointsOf, StreamOf;
      if NothingTwice() && iterators[h][0].Some? {
        StaysSeparate(inputs, iterators, h);
      }
      extended := taken;
      YieldNext(live, before[h], taken, iterators[h]);
      var next := NextCell(h);
      var (lock, typ) := ScriptGroupsForHash(h);
      if lock.None? || (h != ZERO_HASH && typ.None?) {
        return Some(NoScriptGroup), extended;
      }
      if next.None? {
        return Some(NilCell), extended;
      }
      AddFundingInput(h, next.value);
      funded.AddValuesFromOutput(next.value.cell, CellsOf(taken), 0);
      error, extended := None, taken + [next.value];
    }

    static lemma {:induction false} ResolveTaken(live: map<OutPoint, Cell>, ops: seq<OutPoint>,
                                                 taken: seq<TransactionInput>)
      requires AllAgree(live, taken)
      ensures Live(live, ops + OutPointsOf(taken)) <==> Live(live, ops)
      ensures Live(live, ops) ==> Resolve(live, ops + OutPointsOf(taken)) == Resolve(live, ops) + CellsOf(taken)
    {
      if taken == [] {
        assert ops + OutPointsOf(taken) == ops;
      } else {
        var init, last := taken[..|taken| - 1], taken[|taken| - 1];
        assert last in taken;
        ResolveTaken(live, ops, init);
        ResolveAppend(live, ops + OutPointsOf(init), last.outPoint);
        assert ops + OutPointsOf(taken) == ops + OutPointsOf(init) + [last.outPoint];
      }
    }

    /** Every non-empty prefix of these inputs, themselves included, provides less than `need`. */
    static ghost predicate AllShort(known: set<Script>, h: Hash, taken: seq<TransactionInput>, need: uint64) {
      taken != [] ==>
        AllShort(known, h, taken[..|taken| - 1], need) && Expected(known, h, CellsOf(taken), 0) < need
    }

    static lemma {:induction false} NoneShort(known: set<Script>, h: Hash, need: uint64)
      ensures AllShort(known, h, [], need)
    {}

    static lemma {:induction false} ShortSoFar(known: set<Script>, h: Hash, taken: seq<TransactionInput>, need: uint64)
      requires taken != []
      ensures AllShort(known, h, taken, need) <==>
              AllShort(known, h, taken[..|taken| - 1], need) && Expected(known, h, CellsOf(taken), 0) < need
    {}

    static lemma {:induction false} ShortPrefix(known: set<Script>, h: Hash, taken: seq<TransactionInput>, need: uint64,
                                                n: nat)
      requires AllShort(known, h, taken, need) && 0 < n <= |taken|
      ensures AllShort(known, h, taken[..n], need) && Expected(known, h, CellsOf(taken[..n]), 0) < need
    {
      if n == |taken| {
        assert taken[..n] == taken;
      } else {
        ShortPrefix(known, h, taken[..|taken| - 1], need, n);
        assert taken[..|taken| - 1][..n] == taken[..n];
      }
    }

    /** The cells a stream yields before its first nil, or all of them. */
    static function BeforeNil(stream: CellStream): (taken: seq<TransactionInput>)
      ensures |taken| <= |stream|
    {
      if stream == [] || stream[0].None? then [] else [stream[0].value] + BeforeNil(stream[1..])
    }

    /** There is a nil, and the cells before it never reach the request. */
    static ghost predicate StuckAtNil(known: set<Script>, h: Hash, stream: CellStream, need: uint64) {
      |BeforeNil(stream)| < |stream| && AllShort(known, h, BeforeNil(stream), need)
    }

    static lemma {:induction false} StuckHasNil(known: set<Script>, h: Hash, stream: CellStream, need: uint64)
      requires StuckAtNil(known, h, stream, need)
      ensures None in stream
    {
      NilIsNext(stream);
    }

    static lemma {:induction false} NilIsNext(stream: CellStream)
      ensures |BeforeNil(stream)| < |stream| ==> stream[|BeforeNil(stream)|] == None
    {
      if stream != [] && stream[0].Some? {
        NilIsNext(stream[1..]);
      }
    }

    static lemma {:induction false} NothingIsStuck(known: set<Script>, h: Hash, need: uint64)
      ensures !StuckAtNil(known, h, [], need)
    {}

    static lemma {:induction false} BeforeNilStarts(taken: seq<TransactionInput>, rest: CellStream)
      ensures BeforeNil(StreamOf(taken) + rest) == taken + BeforeNil(rest)
      decreases taken
    {
      if taken == [] {
        assert StreamOf(taken) + rest == rest && [] + BeforeNil(rest) == BeforeNil(rest);
      } else {
        var init, last := taken[..|taken| - 1], taken[|taken| - 1];
        BeforeNilStarts(init, [Some(last)] + rest);
        assert StreamOf(taken) + rest == StreamOf(init) + ([Some(last)] + rest);
        assert ([Some(last)] + rest)[1..] == rest;
        assert taken + BeforeNil(rest) == init + ([last] + BeforeNil(rest));
      }
    }

    static lemma {:induction false} StuckAfter(known: set<Script>, h: Hash, taken: seq<TransactionInput>,
                                               rest: CellStream, need: uint64)
      requires AllShort(known, h, taken, need) && rest != [] && rest[0] == None
      ensures StuckAtNil(known, h, StreamOf(taken) + rest, need)
    {
      BeforeNilStarts(taken, rest);
      assert taken + [] == taken;
    }

    static lemma {:induction false} NotStuck(known: set<Script>, h: Hash, taken: seq<TransactionInput>,
                                             rest: CellStream, need: uint64)
      requires taken != [] && (Expected(known, h, CellsOf(taken), 0) >= need || rest == [])
      ensures !StuckAtNil(known, h, StreamOf(taken) + rest, need)
    {
      BeforeNilStarts(taken, rest);
      var all := BeforeNil(StreamOf(taken) + rest);
      if AllShort(known, h, all, need) {
        ShortPrefix(known, h, all, need, |taken|);
        assert all[..|taken|] == taken;
      }
    }

    static lemma {:induction false} NoneDisagree(live: map<OutPoint, Cell>)
      ensures AllAgree(live, [])
    {}

    method AddInputsForFunding(h: Hash, need: uint64)
        returns (r: Result<AssetInformation, BuildError>, ghost taken: seq<TransactionInput>)
      requires StreamsAgree() && GroupsIndexed()
      modifies this`iterators, this`inputs, this`witnesses, this`scriptGroups
      ensures StreamsAgree() && GroupsIndexed()
      // which calls fail
      ensures r == Err(NoIterator) <==> h !in old(iterators)
      ensures r == Err(EmptyIterator) <==> h in old(iterators) && old(iterators)[h] == []
      ensures r == Err(NoScriptGroup) <==>
              h in old(iterators) && old(iterators)[h] != []
                && !(changeLock in scriptGroupMap && (h != ZERO_HASH ==> h in scriptGroupMap))
      ensures r.Err? ==> r.error in {NoIterator, EmptyIterator, NoScriptGroup, NilCell}
      ensures r == Err(NilCell) <==>
              && h in old(iterators) && changeLock in scriptGroupMap && (h != ZERO_HASH ==> h in scriptGroupMap)
              && StuckAtNil(knownUDTs, h, old(iterators)[h], need)
      // otherwise the shortest non-empty prefix that reaches the request, or everything, becomes inputs
      ensures r.Ok? ==> taken != [] && Yielded(old(iterators), h, taken)
      ensures r.Ok? ==> AllShort(knownUDTs, h, taken[..|taken| - 1], need)
      ensures r.Ok? ==> Expected(knownUDTs, h, CellsOf(taken), 0) >= need || iterators[h] == []
      ensures r.Ok? ==> inputs == old(inputs) + OutPointsOf(taken) && |witnesses| == |old(witnesses)| + |taken|
      ensures r.Ok? ==> fresh(r.value) && r.value.knownUDTs == knownUDTs && r.value.Tracks(CellsOf(taken), 0)
      ensures r.Ok? && old(AllLive()) ==> AllLive() && InCells() == old(InCells()) + CellsOf(taken)
      ensures r.Ok? && old(GroupsExact() && FundingCellsMatch()) ==> GroupsExact()
      ensures r.Ok? && old(NothingTwice()) ==> NothingTwice()
    {
      hide Separate, Exact, Refs, Resolve, OutputsOf, Expected, Total, StreamAgrees, StreamMatches, Live, GroupsIndexed,
           StuckAtNil, AllShort, StreamsAgree, FundingCellsMatch, GroupsExact, NothingTwice, AllAgree, CellsOf,
           OutPointsOf, StreamOf;
      taken := [];
      NoneShort(knownUDTs, h, need);
      NoneTaken();
      NoneDisagree(live);
      if h in iterators {
        NothingIsStuck(knownUDTs, h, need);
      }
      if h !in iterators {
        return Err(NoIterator), taken;
      }
      if iterators[h] == [] {
        return Err(EmptyIterator), taken;
      }
      var funded := new AssetInformation(knownUDTs);
      while iterators[h] != []
        invariant StreamsAgree() && GroupsIndexed()
        invariant fresh(funded) && funded.knownUDTs == knownUDTs && funded.Tracks(CellsOf(taken), 0)
        invariant Yielded(old(iterators), h, taken) && AllShort(knownUDTs, h, taken, need)
        invariant taken != [] ==> AllShort(knownUDTs, h, taken[..|taken| - 1], need)
        invariant AllAgree(live, taken)
        invariant taken != [] ==> changeLock in scriptGroupMap && (h != ZERO_HASH ==> h in scriptGroupMap)
        invariant inputs == old(inputs) + OutPointsOf(taken) && |witnesses| == |old(witnesses)| + |taken|
        invariant old(FundingCellsMatch()) ==> FundingCellsMatch()
        invariant old(GroupsExact() && FundingCellsMatch()) ==> GroupsExact()
        invariant old(NothingTwice()) ==> NothingTwice()
        decreases |iterators[h]|
      {
        ghost var rest := iterators[h];
        var error, extended := TakeInput(h, funded, old(iterators), taken);
        if error.Some? {
          if error == Some(NilCell) {
            StuckAfter(knownUDTs, h, taken, rest, need);
          }
          return Err(error.value), taken;
        }
        taken := extended;
        ShortSoFar(knownUDTs, h, taken, need);
        if funded.AssetAmount(h) >= need {
          break;
        }
      }
      r := Ok(funded);
      NotStuck(knownUDTs, h, taken, iterators[h], need);
      ResolveTaken(live, old(inputs), taken);
    }

    // ---------- what taken inputs contribute ----------

    static lemma {:induction false} TakenPure(known: set<Script>, h: Hash, u: Hash, stream: CellStream,
                                              taken: seq<TransactionInput>)
      requires StreamPure(known, h, stream) && u != h && u != ZERO_HASH
      requires forall t :: t in taken ==> Some(t) in stream
      ensures Total(known, u, CellsOf(taken)) == 0
    {
      if taken != [] {
        var last := taken[|taken| - 1];
        assert last in taken;
        assert Some(last) in stream;
        TakenPure(known, h, u, stream, taken[..|taken| - 1]);
      }
    }

    static lemma {:induction false} YieldedMembers(stream: CellStream, taken: seq<TransactionInput>, rest: CellStream)
      requires stream == StreamOf(taken) + rest
      ensures forall t :: t in taken ==> Some(t) in stream
      ensures forall t :: t in rest ==> t in stream
    {
      StreamOfMembers(taken);
    }

    static lemma {:induction false} StreamOfMembers(taken: seq<TransactionInput>)
      ensures forall t :: t in taken ==> Some(t) in StreamOf(taken)
    {
      if taken != [] {
        StreamOfMembers(taken[..|taken| - 1]);
      }
    }

    /** Fetching from iterator h keeps all streams as they should be, and brings no other UDT in. */
    lemma {:induction false} YieldedKeeps(before: map<Hash, CellStream>, h: Hash, taken: seq<TransactionInput>,
                                          ins: seq<Cell>)
      requires Yielded(before, h, taken)
      ensures (forall k :: k in before ==> StreamPure(knownUDTs, k, before[k])) ==>
                TypePure() && forall u :: u in knownUDTs && u != h ==>
                                Expected(knownUDTs, u, ins + CellsOf(taken), 0) == Expected(knownUDTs, u, ins, 0)
      ensures (forall k :: k in before ==> StreamMatches(changeLock, k, before[k])) ==> FundingCellsMatch()
    {
      YieldedMembers(before[h], taken, iterators[h]);
      if forall k :: k in before ==> StreamPure(knownUDTs, k, before[k]) {
        forall u | u in knownUDTs && u != h
          ensures Expected(knownUDTs, u, ins + CellsOf(taken), 0) == Expected(knownUDTs, u, ins, 0)
        {
          TakenPure(knownUDTs, h, u, before[h], taken);
          TotalConcat(knownUDTs, u, ins, CellsOf(taken));
        }
      }
    }

    // ---------- change cells ----------

    function RequiredCapacity(h: Hash): uint64 {
      occupied(changeLock, KeyType(h), if h == ZERO_HASH then 0 else 16)
    }

    function CkbChangeCellCapacity(): uint64 {
      RequiredCapacity(ZERO_HASH)
    }

    /** The change cell for h; a UDT change cell keeps just its own rent in CKBytes. */
    function ChangeOutput(h: Hash, amount: uint64): CellOutput {
      CellOutput(if h == ZERO_HASH then amount else RequiredCapacity(h), changeLock, KeyType(h))
    }

    static function ChangeData(h: Hash, amount: uint64): Bytes {
      if h == ZERO_HASH then [] else LittleEndian.PackUint128(amount).value
    }

    function ChangeCellIndex(h: Hash): int
      requires h == ZERO_HASH || h in udtChangeCellIndices
      reads `ckbChangeCellIndex, `udtChangeCellIndices
    {
      if h == ZERO_HASH then ckbChangeCellIndex else udtChangeCellIndices[h]
    }

    /** The capacity set aside for a change cell is what that very cell occupies. */
    lemma {:induction false} ChangeCellRent(h: Hash, amount: uint64)
      ensures var c := ChangeOutput(h, amount);
              && RequiredCapacity(h) == occupied(c.lock, c.typ, |ChangeData(h, amount)|)
              && c.lock == changeLock && (h != ZERO_HASH ==> c.typ == Some(h) && c.capacity == RequiredCapacity(h))
    {
      LittleEndian.PackUnpack(amount);
    }

    /** The change cell for h was appended to outputs, data and groups, and entered in its table. */
    twostate predicate ChangeAppended(h: Hash, amount: uint64)
      reads this
    {
      && outputs == old(outputs) + [ChangeOutput(h, amount)]
      && outputsData == old(outputsData) + [ChangeData(h, amount)]
      && (if h == ZERO_HASH
          then ckbChangeCellIndex == |old(outputs)| && udtChangeCellIndices == old(udtChangeCellIndices)
          else ckbChangeCellIndex == old(ckbChangeCellIndex) &&
               udtChangeCellIndices == old(udtChangeCellIndices)[h := |old(outputs)|])
    }

    method AddOrUpdateCKBChangeCell(amount: uint64)
      requires ChangeTablesIndexed() && GroupsIndexed() && changeLock in scriptGroupMap
      modifies this`outputs, this`outputsData, this`ckbChangeCellIndex, this`scriptGroups
      ensures ChangeTablesIndexed() && GroupsIndexed()
      ensures old(ckbChangeCellIndex) == -1 ==>
              ChangeAppended(ZERO_HASH, amount) && (old(GroupsExact()) ==> GroupsExact())
      ensures old(ckbChangeCellIndex) != -1 ==>
                && ckbChangeCellIndex == old(ckbChangeCellIndex) && outputsData == old(outputsData)
                && outputs == old(outputs)[ckbChangeCellIndex := old(outputs)[ckbChangeCellIndex].(capacity := amount)]
    {
      hide Separate, Exact, Refs, Resolve, OutputsOf;
      var idx := ckbChangeCellIndex;
      if idx != -1 {
        outputs := outputs[idx := outputs[idx].(capacity := amount)];
        return;
      }
      outputs := outputs + [CellOutput(amount, changeLock, None)];
      outputsData := outputsData + [[]];
      ckbChangeCellIndex := |outputs| - 1;
      var (lock, _) := ScriptGroupsForHash(ZERO_HASH);
      scriptGroups := AppendOutputToGroups(scriptGroups, lock.value, None, |outputs| - 1);
      if old(GroupsExact()) {
        ExactOutputCell(old(scriptGroups), scriptGroupMap, Refs(OutputsOf(InCells())), old(outputs),
                        ChangeOutput(ZERO_HASH, amount), ZERO_HASH);
      }
    }

    method AddOrUpdateUDTChangeCell(u: Script, amount: uint64)
      requires ChangeTablesIndexed() && GroupsIndexed() && changeLock in scriptGroupMap && u in knownUDTs
      modifies this`outputs, this`outputsData, this`udtChangeCellIndices, this`scriptGroups
      ensures ChangeTablesIndexed() && GroupsIndexed()
      ensures old(udtChangeCellIndices)[u] == -1 ==>
              ChangeAppended(u, amount) && (old(GroupsExact()) && u in scriptGroupMap ==> GroupsExact())
      ensures old(udtChangeCellIndices)[u] != -1 ==>
                && outputs == old(outputs) && udtChangeCellIndices == old(udtChangeCellIndices)
                && outputsData == old(outputsData)[udtChangeCellIndices[u] := ChangeData(u, amount)]
    {
      hide Separate, Exact, Refs, Resolve, OutputsOf;
      LittleEndian.PackUnpack(amount);
      var data := LittleEndian.PackUint128(amount).value;
      var idx := udtChangeCellIndices[u];
      if idx != -1 {
        outputsData := outputsData[idx := data];
        return;
      }
      outputs := outputs + [CellOutput(RequiredCapacity(u), changeLock, Some(u))];
      outputsData := outputsData + [data];
      var (lock, typ) := ScriptGroupsForHash(u);
      scriptGroups := AppendOutputToGroups(scriptGroups, lock.value, typ, |outputs| - 1);
      udtChangeCellIndices := udtChangeCellIndices[u := |outputs| - 1];
      if old(GroupsExact()) && u in scriptGroupMap {
        ExactOutputCell(old(scriptGroups), scriptGroupMap, Refs(OutputsOf(InCells())), old(outputs),
                        ChangeOutput(u, amount), u);
      }
    }

    static lemma {:induction false} ExpectedConcat(known: set<Script>, h: Hash, a: seq<Cell>, b: seq<Cell>)
      ensures Expected(known, h, a + b, 0) == Add64(Expected(known, h, a, 0), Expected(known, h, b, 0))
    {
      TotalConcat(known, h, a, b);
      WrapAdd(Total(known, h, a), Total(known, h, b));
    }

    /** addInputsForFunding followed by the merge into the provided totals. */
    method AddFunding(h: Hash, need: uint64, provided: AssetInformation)
      returns (error: Option<BuildError>, ghost taken: seq<TransactionInput>)
      requires StreamsAgree() && GroupsIndexed() && AllLive()
      requires provided.knownUDTs == knownUDTs && provided.Tracks(InCells(), 0)
      modifies this`iterators, this`inputs, this`witnesses, this`scriptGroups, provided
      ensures StreamsAgree() && GroupsIndexed()
      ensures error == Some(NoIterator) <==> h !in old(iterators)
      ensures error == Some(EmptyIterator) <==> h in old(iterators) && old(iterators)[h] == []
      ensures error == Some(NoScriptGroup) <==>
              h in old(iterators) && old(iterators)[h] != []
                && !(changeLock in scriptGroupMap && (h != ZERO_HASH ==> h in scriptGroupMap))
      ensures error == Some(NilCell) <==>
              && h in old(iterators) && changeLock in scriptGroupMap && (h != ZERO_HASH ==> h in scriptGroupMap)
              && StuckAtNil(knownUDTs, h, old(iterators)[h], need)
      ensures error.Some? ==> error.value in {NoIterator, EmptyIterator, NoScriptGroup, NilCell}
      ensures error == None && old(NothingTwice()) ==> NothingTwice()
      ensures error == None ==>
                && taken != [] && Yielded(old(iterators), h, taken)
                && AllShort(knownUDTs, h, taken[..|taken| - 1], need)
                && (Expected(knownUDTs, h, CellsOf(taken), 0) >= need || iterators[h] == [])
                && inputs == old(inputs) + OutPointsOf(taken) && |witnesses| == |old(witnesses)| + |taken|
                && AllLive() && InCells() == old(InCells()) + CellsOf(taken)
                && provided.Tracks(InCells(), 0)
      ensures error == None && old(TypePure()) ==> TypePure() && forall u :: u in knownUDTs && u != h ==>
              In64(u) == old(In64(u))
      ensures error == None && old(FundingCellsMatch()) ==>
              FundingCellsMatch() && (old(GroupsExact()) ==> GroupsExact())
    {
      hide Separate, Exact, Refs, Resolve, OutputsOf, Expected, Total, StreamAgrees, StreamMatches, StreamPure, Live,
           AllShort, CellsOf;
      var r;
      r, taken := AddInputsForFunding(h, need);
      if r.Err? {
        return Some(r.error), taken;
      }
      provided.MergeWithAssetInformation(r.value);
      forall k: Hash ensures provided.AssetAmount(k) == Expected(knownUDTs, k, InCells(), 0) {
        ExpectedConcat(knownUDTs, k, old(InCells()), CellsOf(taken));
      }
      YieldedKeeps(old(iterators), h, taken, old(InCells()));
      error := None;
    }

    // ---------- change and required funding ----------

    lemma {:induction false} ChangeTotals(h: Hash, amount: uint64, outs: seq<Cell>)
      requires h == ZERO_HASH || h in knownUDTs
      ensures var more := outs + [Cell(ChangeOutput(h, amount), ChangeData(h, amount))];
              && Total(knownUDTs, ZERO_HASH, more)
                 == Total(knownUDTs, ZERO_HASH, outs) + ChangeOutput(h, amount).capacity
              && Expected(knownUDTs, ZERO_HASH, more, feeShannon) ==
                   Add64(Expected(knownUDTs, ZERO_HASH, outs, feeShannon), ChangeOutput(h, amount).capacity)
              && (h != ZERO_HASH ==> Expected(knownUDTs, h, more, 0) == Add64(Expected(knownUDTs, h, outs, 0), amount))
              && forall u :: u in knownUDTs && u != h ==>
                 Expected(knownUDTs, u, more, 0) == Expected(knownUDTs, u, outs, 0)
    {
      hide Expected, Total, ChangeOutput, ChangeData, Holding;
      var c := Cell(ChangeOutput(h, amount), ChangeData(h, amount));
      ChangeHoldings(h, amount);
      TotalAppend(knownUDTs, ZERO_HASH, outs, c);
      ExpectedAppend(knownUDTs, ZERO_HASH, outs, feeShannon, c);
      ExpectedAppend(knownUDTs, h, outs, 0, c);
      forall u | u in knownUDTs && u != h
        ensures Expected(knownUDTs, u, outs + [c], 0) == Expected(knownUDTs, u, outs, 0)
      {
        ExpectedAppend(knownUDTs, u, outs, 0, c);
      }
    }

    lemma {:induction false} ChangeHoldings(h: Hash, amount: uint64)
      requires h == ZERO_HASH || h in knownUDTs
      ensures var c := Cell(ChangeOutput(h, amount), ChangeData(h, amount));
              && Holding(knownUDTs, ZERO_HASH, c) == ChangeOutput(h, amount).capacity
              && (h != ZERO_HASH ==> Holding(knownUDTs, h, c) == amount)
              && forall u :: u in knownUDTs && u != h ==> Holding(knownUDTs, u, c) == 0
    {
      LittleEndian.PackUnpack(amount);
      WrapSmall(amount);
    }

    method AddOrUpdateChangeCell(h: Hash, amount: uint64)
      requires ChangeTablesIndexed() && GroupsIndexed() && changeLock in scriptGroupMap
      requires (h == ZERO_HASH || h in knownUDTs) && ChangeCellIndex(h) == -1
      modifies this`outputs, this`outputsData, this`ckbChangeCellIndex, this`udtChangeCellIndices, this`scriptGroups
      ensures ChangeTablesIndexed() && GroupsIndexed() && ChangeAppended(h, amount)
      ensures Due64() == Add64(old(Due64()), ChangeOutput(h, amount).capacity)
      ensures DueCkb() == old(DueCkb()) + ChangeOutput(h, amount).capacity
      ensures h != ZERO_HASH ==> Out64(h) == Add64(old(Out64(h)), amount)
      ensures forall u :: u in knownUDTs && u != h ==> Out64(u) == old(Out64(u))
      ensures old(GroupsExact()) && (h != ZERO_HASH ==> h in scriptGroupMap) ==> GroupsExact()
    {
      hide Separate, Exact, Refs, Resolve, OutputsOf, Expected, Total, OutputCells;
      ChangeTotals(h, amount, OutCells());
      OutputCellsAppend(outputs, outputsData, ChangeOutput(h, amount), ChangeData(h, amount));
      if h == ZERO_HASH {
        AddOrUpdateCKBChangeCell(amount);
      } else {
        AddOrUpdateUDTChangeCell(h, amount);
      }
    }

    method AddChangeAndAdjustRequiredFunding(h: Hash, change: uint64, required: AssetInformation)
      requires ChangeTablesIndexed() && GroupsIndexed() && changeLock in scriptGroupMap
      requires (h == ZERO_HASH || h in knownUDTs) && ChangeCellIndex(h) == -1
      modifies this`outputs, this`outputsData, this`ckbChangeCellIndex, this`udtChangeCellIndices, this`scriptGroups,
               required
      ensures ChangeTablesIndexed() && GroupsIndexed() && ChangeAppended(h, change)
      ensures required.assetAmounts ==
              old(required.assetAmounts)[ZERO_HASH := Add64(old(required.AssetAmount(ZERO_HASH)), RequiredCapacity(h))]
      ensures Due64() == Add64(old(Due64()), ChangeOutput(h, change).capacity)
      ensures DueCkb() == old(DueCkb()) + ChangeOutput(h, change).capacity
      ensures h != ZERO_HASH ==> Out64(h) == Add64(old(Out64(h)), change)
      ensures forall u :: u in knownUDTs && u != h ==> Out64(u) == old(Out64(u))
      ensures old(GroupsExact()) && (h != ZERO_HASH ==> h in scriptGroupMap) ==> GroupsExact()
    {
      hide Separate, Exact, Refs, Resolve, OutputsOf, Expected, Total, OutputCells;
      required.AddAssetAmount(ZERO_HASH, RequiredCapacity(h));
      AddOrUpdateChangeCell(h, change);
    }

    // ---------- balancing ----------

    /** The running totals agree with the transaction: provided with its inputs, required CKBytes with outputs and
        fee. */
    ghost predicate Booked(required: AssetInformation, provided: AssetInformation)
      reads this, required, provided
    {
      && Valid() && AllLive() && changeLock in scriptGroupMap
      && required.knownUDTs == knownUDTs && provided.knownUDTs == knownUDTs
      && provided.Tracks(InCells(), 0)
      && required.AssetAmount(ZERO_HASH) == Due64()
    }

    /** The transaction so far is kept; cells are only appended, none is listed twice if none can be, and new outputs
        belong to the change address. */
    twostate predicate Extends()
      reads `inputs, `witnesses, `outputs, `outputsData, `iterators
    {
      Grows(changeLock, old(Body()), Body()) && (old(NothingTwice()) ==> NothingTwice())
    }

    function Body(): TxBody
      reads `inputs, `witnesses, `outputs, `outputsData
    {
      TxBody(inputs, outputs, outputsData, |witnesses| - |inputs|)
    }

    static predicate Grows(lock: Script, a: TxBody, b: TxBody) {
      && a.inputs <= b.inputs && a.outputs <= b.outputs && a.data <= b.data
      && b.spareWitnesses == a.spareWitnesses
      && forall i :: |a.outputs| <= i < |b.outputs| ==> b.outputs[i].lock == lock
    }

    static lemma {:induction false} GrowsSelf(lock: Script, a: TxBody)
      ensures Grows(lock, a, a)
    {}

    static lemma {:induction false} GrowsLength(lock: Script, a: TxBody, b: TxBody)
      requires Grows(lock, a, b)
      ensures |a.outputs| <= |b.outputs|
    {}

    static lemma {:induction false} GrowsOn(lock: Script, a: TxBody, b: TxBody, c: TxBody)
      requires Grows(lock, a, b) && Grows(lock, b, c)
      ensures Grows(lock, a, c)
    {
      assert forall i :: 0 <= i < |b.outputs| ==> c.outputs[i] == b.outputs[i];
    }

    /** What a stream holds of an asset. */
    static ghost function StreamTotal(known: set<Script>, h: Hash, stream: CellStream): nat {
      if stream == [] then 0
      else
        var last := stream[|stream| - 1];
        StreamTotal(known, h, stream[..|stream| - 1]) + if last.Some? then Holding(known, h, last.value.cell) else 0
    }

    static lemma {:induction false} StreamTotalConcat(known: set<Script>, h: Hash, a: CellStream, b: CellStream)
      ensures StreamTotal(known, h, a + b) == StreamTotal(known, h, a) + StreamTotal(known, h, b)
    {
      if b == [] {
        assert a + b == a;
      } else {
        StreamTotalConcat(known, h, a, b[..|b| - 1]);
        assert (a + b)[..|a + b| - 1] == a + b[..|b| - 1];
      }
    }

    static lemma {:induction false} StreamTotalOf(known: set<Script>, h: Hash, taken: seq<TransactionInput>)
      ensures StreamTotal(known, h, StreamOf(taken)) == Total(known, h, CellsOf(taken))
    {
      if taken != [] {
        var init, last := taken[..|taken| - 1], taken[|taken| - 1];
        StreamTotalOf(known, h, init);
        TotalAppend(known, h, CellsOf(init), last.cell);
        assert StreamOf(taken)[..|taken| - 1] == StreamOf(init);
      }
    }

    /** From a stream that still holds `after`, exactly the shortest non-empty prefix that reaches `need` was taken, or
        all. */
    static ghost predicate Shortest(known: set<Script>, h: Hash, before: CellStream, after: CellStream,
                                    taken: seq<TransactionInput>, need: uint64) {
      && taken != [] && before == StreamOf(taken) + after
      && AllShort(known, h, taken[..|taken| - 1], need)
      && (Expected(known, h, CellsOf(taken), 0) >= need || after == [])
    }

    /** The inputs that were appended are exactly the cells a top-up took from iterator h. */
    ghost predicate Took(h: Hash, before: map<Hash, CellStream>, ops: seq<OutPoint>, taken: seq<TransactionInput>,
                         need: uint64)
      reads `iterators, `inputs
    {
      && Yielded(before, h, taken) && inputs == ops + OutPointsOf(taken)
      && Shortest(knownUDTs, h, before[h], iterators[h], taken, need)
    }

    ghost function Stock(h: Hash): nat
      reads `iterators
    {
      if h in iterators then StreamTotal(knownUDTs, h, iterators[h]) else 0
    }

    /** Iterator h can be asked for `need`: it is not empty, and no nil is reached before the cells are enough. */
    ghost predicate Yields(h: Hash, need: uint64)
      reads `iterators
    {
      h in iterators && iterators[h] != [] && !StuckAtNil(knownUDTs, h, iterators[h], need)
    }

    static predicate Fetches(already: uint64, requested: uint64) {
      already < requested || requested == 0
    }

    /** A request for UDT u is met by what is provided already, or together with all that its iterator holds. */
    ghost predicate Meets(u: Script, already: uint64, requested: uint64)
      reads `iterators
    {
      Fetches(already, requested) ==> Yields(u, Sub64(requested, already)) && already + Stock(u) >= requested
    }

    /** What balancing one UDT leaves alone. */
    twostate predicate OnlyTouches(u: Script, required: AssetInformation)
      requires old(AllLive() && ChangeTablesIndexed()) && AllLive() && ChangeTablesIndexed()
      reads this, required
    {
      && ckbChangeCellIndex == old(ckbChangeCellIndex)
      && (forall v :: v != ZERO_HASH ==> required.AssetAmount(v) == old(required.AssetAmount(v)))
      && (forall v :: v in knownUDTs && v != u ==> ChangeCellIndex(v) == old(ChangeCellIndex(v)))
      && (forall v :: v in knownUDTs && v != u ==> Out64(v) == old(Out64(v)))
      && Extends()
      && scriptGroupMap == old(scriptGroupMap)
      && (old(TypePure()) ==> TypePure() && forall v :: v in knownUDTs && v != u ==> In64(v) == old(In64(v)))
      && (old(FundingCellsMatch()) ==>
          FundingCellsMatch() && (old(GroupsExact()) && u in scriptGroupMap ==> GroupsExact()))
    }

    method TopUp(u: Script, requested: uint64, required: AssetInformation, provided: AssetInformation)
      returns (error: Option<BuildError>, ghost taken: seq<TransactionInput>)
      requires required != provided && Booked(required, provided) && u in knownUDTs
      modifies this`iterators, this`inputs, this`witnesses, this`scriptGroups, provided
      ensures error == None ==> Booked(required, provided) && OnlyTouches(u, required)
      // which calls fail, and which cells are taken otherwise: none, or the shortest prefix that is enough
      ensures error != Some(NotEnoughFunds)
      ensures error == Some(NoScriptGroup) ==> u !in scriptGroupMap
      ensures u in scriptGroupMap ==>
                (error == None <==>
                 (Fetches(old(In64(u)), requested) ==> old(Yields(u, Sub64(requested, In64(u))))))
      ensures error == None ==>
                if Fetches(old(In64(u)), requested)
                then Took(u, old(iterators), old(inputs), taken, Sub64(requested, old(In64(u))))
                else inputs == old(inputs) && iterators == old(iterators)
      ensures error == None && old(In64(u) + Stock(u)) < TWO_64 ==>
                (In64(u) < requested <==>
                 Fetches(old(In64(u)), requested) && old(In64(u) + Stock(u)) < requested)
      ensures error == None ==> TakesFrom(u)
    {
      hide Separate, Exact, Refs, Resolve, OutputsOf, Expected, Total, OutputCells, StreamAgrees, StreamMatches,
           StreamPure, Live, AllShort, CellsOf, OutPointsOf, GroupsIndexed, StuckAtNil, StreamTotal;
      error, taken := None, [];
      var already := provided.AssetAmount(u);
      if already < requested || requested == 0 {
        var need := Sub64(requested, already);
        error, taken := AddFunding(u, need, provided);
        if error == None {
          ToppedUp(knownUDTs, u, old(InCells()), taken, iterators[u], already, requested);
        }
      }
    }

    /** After a top-up the request is met exactly if everything the stream held is enough for it. */
    static lemma {:induction false} ToppedUp(known: set<Script>, u: Script, ins: seq<Cell>,
                                             taken: seq<TransactionInput>,
                                             rest: CellStream, already: uint64, requested: uint64)
      requires already == Expected(known, u, ins, 0) && Fetches(already, requested)
      requires Expected(known, u, CellsOf(taken), 0) >= Sub64(requested, already) || rest == []
      ensures Total(known, ZERO_HASH, ins + CellsOf(taken)) ==
              Total(known, ZERO_HASH, ins) + Total(known, ZERO_HASH, CellsOf(taken))
      ensures StreamTotal(known, ZERO_HASH, StreamOf(taken) + rest) >= Total(known, ZERO_HASH, CellsOf(taken))
      ensures var stock := StreamTotal(known, u, StreamOf(taken) + rest);
              already + stock < TWO_64 ==>
                (Expected(known, u, ins + CellsOf(taken), 0) < requested <==> already + stock < requested)
    {
      hide CellsOf, StreamOf, StreamTotal, Total;
      TotalConcat(known, ZERO_HASH, ins, CellsOf(taken));
      StreamTotalConcat(known, ZERO_HASH, StreamOf(taken), rest);
      StreamTotalOf(known, ZERO_HASH, taken);
      StreamTotalConcat(known, u, StreamOf(taken), rest);
      StreamTotalOf(known, u, taken);
      ExpectedConcat(known, u, ins, CellsOf(taken));
      NothingStreams(known, u);
      if Total(known, u, CellsOf(taken)) < TWO_64 {
        WrapSmall(Total(known, u, CellsOf(taken)));
      }
    }

    static lemma {:induction false} NothingStreams(known: set<Script>, h: Hash)
      ensures StreamTotal(known, h, []) == 0
    {}

    /** The other iterators stay as they are, and the CKBytes of the inputs grow by no more than iterator u held. */
    twostate predicate TakesFrom(u: Script)
      requires old(AllLive()) && AllLive() && old(|outputs| == |outputsData|) && |outputs| == |outputsData|
      reads this
    {
      && (forall h :: h != u ==> (h in iterators <==> h in old(iterators)))
      && (forall h :: h != u && h in iterators ==> iterators[h] == old(iterators)[h])
      && old(InCkb()) <= InCkb() <= old(InCkb() + CkbOf(u))
    }

    /** The CKBytes of the cells of iterator h. */
    ghost function CkbOf(h: Hash): nat
      reads `iterators
    {
      if h in iterators then StreamTotal(knownUDTs, ZERO_HASH, iterators[h]) else 0
    }

    method AddExcess(u: Script, requested: uint64, required: AssetInformation, provided: AssetInformation)
      returns (error: Option<BuildError>)
      requires required != provided && Booked(required, provided)
      requires u in knownUDTs && udtChangeCellIndices[u] == -1
      modifies this`outputs, this`outputsData, this`ckbChangeCellIndex, this`udtChangeCellIndices, this`scriptGroups,
               required
      ensures error == None ==> Booked(required, provided) && OnlyTouches(u, required)
      ensures error == if In64(u) < requested then Some(NotEnoughFunds) else None
      ensures error == None ==> Out64(u) == Add64(old(Out64(u)), In64(u) - requested)
      ensures error == None ==> DueCkb() <= old(DueCkb()) + RequiredCapacity(u)
    {
      hide Separate, Exact, Refs, Resolve, OutputsOf, Expected, Total, OutputCells, StreamAgrees, StreamMatches,
           StreamPure, Live, GroupsIndexed, ChangeData, RequiredCapacity, TypePure, FundingCellsMatch, GroupsExact,
           NothingTwice;
      var fundedAmount := provided.Clone();
      var fundedAssetValue := fundedAmount.AssetAmount(u);
      assert fundedAssetValue == In64(u);
      if fundedAssetValue < requested {
        return Some(NotEnoughFunds);
      }
      if fundedAssetValue == requested {
        return None;
      }
      AddChangeAndAdjustRequiredFunding(u, Sub64(fundedAssetValue, requested), required);
      error := None;
    }

    method AddInputsAndChangeForFunding(u: Script, requested: uint64, required: AssetInformation,
                                        provided: AssetInformation)
      returns (error: Option<BuildError>, ghost taken: seq<TransactionInput>)
      requires required != provided && Booked(required, provided)
      requires u in knownUDTs && udtChangeCellIndices[u] == -1
      modifies this, required, provided
      ensures error == None ==> Booked(required, provided) && OnlyTouches(u, required)
      // the change is everything above the request, whether or not a change cell was needed for it
      ensures error == None ==> In64(u) >= requested && Out64(u) == Add64(old(Out64(u)), In64(u) - requested)
      // cells are taken only if something is missing, and then the shortest prefix that is enough
      ensures error == None ==>
                if Fetches(old(In64(u)), requested)
                then Took(u, old(iterators), old(inputs), taken, Sub64(requested, old(In64(u))))
                else inputs == old(inputs) && iterators == old(iterators)
      // funds fall short exactly if all there is does
      ensures u in old(scriptGroupMap) && old(In64(u) + Stock(u)) < TWO_64 ==>
                (error == Some(NotEnoughFunds) <==>
                 && Fetches(old(In64(u)), requested) && old(Yields(u, Sub64(requested, In64(u))))
                 && old(In64(u) + Stock(u)) < requested)
      ensures u in old(scriptGroupMap) && old(In64(u) + Stock(u)) < TWO_64 ==>
                (error == None <==> old(Meets(u, In64(u), requested)))
      ensures error == None ==> TakesFrom(u) && DueCkb() <= old(DueCkb()) + RequiredCapacity(u)
    {
      hide Separate, Exact, Refs, Resolve, OutputsOf, Expected, Total, OutputCells, StreamAgrees, StreamMatches,
           StreamPure, Live, GroupsIndexed, Took, Yields, Stock, StreamTotal, CkbOf, RequiredCapacity;
      error, taken := TopUp(u, requested, required, provided);
      if error.Some? {
        return;
      }
      error := AddExcess(u, requested, required, provided);
    }

    // ---------- CKB capacity ----------

    /** CKBytes of the inputs, CKBytes due, and CKBytes left in the CKB iterator, as unbounded numbers. */
    ghost function InCkb(): nat
      requires AllLive()
      reads `inputs
    {
      Total(knownUDTs, ZERO_HASH, InCells())
    }

    ghost function DueCkb(): nat
      requires |outputs| == |outputsData|
      reads `outputs, `outputsData
    {
      Total(knownUDTs, ZERO_HASH, OutCells()) + feeShannon
    }

    ghost function Reserve(): nat
      reads `iterators
    {
      if ZERO_HASH in iterators then StreamTotal(knownUDTs, ZERO_HASH, iterators[ZERO_HASH]) else 0
    }

    /** No uint64 sum in the CKB completion wraps around. */
    ghost predicate Roomy()
      requires AllLive() && |outputs| == |outputsData|
      reads `inputs, `outputs, `outputsData, `iterators
    {
      DueCkb() + CkbChangeCellCapacity() < TWO_64 && InCkb() + Reserve() < TWO_64
    }

    ghost predicate NoNilCkbCell()
      reads `iterators
    {
      ZERO_HASH in iterators ==> None !in iterators[ZERO_HASH]
    }

    /** Inputs and CKB iterator together can pay everything due and the rent of a change cell. */
    ghost predicate Affordable()
      requires AllLive() && |outputs| == |outputsData|
      reads `inputs, `outputs, `outputsData, `iterators
    {
      NoNilCkbCell() && InCkb() + Reserve() >= DueCkb() + CkbChangeCellCapacity()
    }

    lemma {:induction false} Narrow()
      requires AllLive() && |outputs| == |outputsData|
      ensures InCkb() < TWO_64 ==> In64(ZERO_HASH) == InCkb()
      ensures DueCkb() < TWO_64 ==> Due64() == DueCkb()
    {}

    static lemma {:induction false} ConcatTaken(a: seq<TransactionInput>, b: seq<TransactionInput>)
      ensures CellsOf(a + b) == CellsOf(a) + CellsOf(b)
      ensures OutPointsOf(a + b) == OutPointsOf(a) + OutPointsOf(b)
      ensures StreamOf(a + b) == StreamOf(a) + StreamOf(b)
    {
      if b == [] {
        NoneTaken();
        assert a + b == a;
      } else {
        hide CellsOf, OutPointsOf, StreamOf;
        var init, last := b[..|b| - 1], b[|b| - 1];
        ConcatTaken(a, init);
        assert b == init + [last] && a + b == a + init + [last];
        TakenAppend(init, last);
        TakenAppend(a + init, last);
      }
    }

    static lemma {:induction false} NoneTaken()
      ensures CellsOf([]) == [] && OutPointsOf([]) == [] && StreamOf([]) == []
    {}

    static lemma {:induction false} ShortForMore(known: set<Script>, h: Hash, taken: seq<TransactionInput>,
                                                 need: uint64, more: uint64)
      requires AllShort(known, h, taken, need) && need <= more
      ensures AllShort(known, h, taken, more)
    {
      if taken != [] {
        ShortForMore(known, h, taken[..|taken| - 1], need, more);
      }
    }

    /** Prefixes that are too short by themselves are too short after other cells, for the sum of both requests. */
    static lemma {:induction false} ShortAfter(
      known: set<Script>, a: seq<TransactionInput>, b: seq<TransactionInput>, rest: uint64, need: uint64)
      requires AllShort(known, ZERO_HASH, a, need) && AllShort(known, ZERO_HASH, b, rest)
      requires Total(known, ZERO_HASH, CellsOf(a)) + rest == need
      requires Total(known, ZERO_HASH, CellsOf(a)) + Total(known, ZERO_HASH, CellsOf(b)) < TWO_64
      ensures AllShort(known, ZERO_HASH, a + b, need)
    {
      if b == [] {
        assert a + b == a;
      } else {
        hide StreamOf, OutPointsOf, Total;
        var init := b[..|b| - 1];
        TotalMonotone(known, ZERO_HASH, CellsOf(b), |init|);
        assert CellsOf(b)[..|init|] == CellsOf(init);
        ShortAfter(known, a, init, rest, need);
        assert (a + b)[..|a + b| - 1] == a + init;
        ConcatTotal(known, a, b);
      }
    }

    static lemma {:induction false} ConcatTotal(known: set<Script>, a: seq<TransactionInput>, b: seq<TransactionInput>)
      requires Total(known, ZERO_HASH, CellsOf(a)) + Total(known, ZERO_HASH, CellsOf(b)) < TWO_64
      ensures Expected(known, ZERO_HASH, CellsOf(a), 0) == Total(known, ZERO_HASH, CellsOf(a))
      ensures Expected(known, ZERO_HASH, CellsOf(b), 0) == Total(known, ZERO_HASH, CellsOf(b))
      ensures Expected(known, ZERO_HASH, CellsOf(a + b), 0)
              == Total(known, ZERO_HASH, CellsOf(a)) + Total(known, ZERO_HASH, CellsOf(b))
    {
      hide Total;
      ConcatTaken(a, b);
      TotalConcat(known, ZERO_HASH, CellsOf(a), CellsOf(b));
    }

    /** A shortest prefix and then a shortest prefix of what is left make up the shortest one for both requests
        together, if the first one alone falls short of them. */
    static lemma {:induction false} ShortestTwice(
      known: set<Script>, s0: CellStream, s1: CellStream, s2: CellStream, a: seq<TransactionInput>,
      b: seq<TransactionInput>, first: uint64, rest: uint64, need: uint64)
      requires Shortest(known, ZERO_HASH, s0, s1, a, first) && Shortest(known, ZERO_HASH, s1, s2, b, rest)
               && first <= need
      requires Total(known, ZERO_HASH, CellsOf(a)) + rest == need && rest > 0
      requires Total(known, ZERO_HASH, CellsOf(a)) + Total(known, ZERO_HASH, CellsOf(b)) < TWO_64
      ensures Shortest(known, ZERO_HASH, s0, s2, a + b, need)
    {
      hide AllShort, Expected, Total, CellsOf, StreamOf, OutPointsOf;
      var init := b[..|b| - 1];
      ConcatTaken(a, b);
      assert StreamOf(a) + (StreamOf(b) + s2) == StreamOf(a) + StreamOf(b) + s2;
      ConcatTotal(known, a, b);
      ShortForMore(known, ZERO_HASH, a[..|a| - 1], first, need);
      ShortSoFar(known, ZERO_HASH, a, need);
      TakenMonotone(known, b);
      ShortAfter(known, a, init, rest, need);
      assert (a + b)[..|a + b| - 1] == a + init;
    }

    static lemma {:induction false} TakenMonotone(known: set<Script>, taken: seq<TransactionInput>)
      requires taken != []
      ensures Total(known, ZERO_HASH, CellsOf(taken[..|taken| - 1])) <= Total(known, ZERO_HASH, CellsOf(taken))
    {
      TotalMonotone(known, ZERO_HASH, CellsOf(taken), |taken| - 1);
    }

    static lemma {:induction false} ShortestIsEnough(
      known: set<Script>, s0: CellStream, s1: CellStream, a: seq<TransactionInput>, first: uint64, need: uint64)
      requires Shortest(known, ZERO_HASH, s0, s1, a, first) && first <= need
               && Expected(known, ZERO_HASH, CellsOf(a), 0) >= need
      ensures Shortest(known, ZERO_HASH, s0, s1, a, need)
    {
      ShortForMore(known, ZERO_HASH, a[..|a| - 1], first, need);
    }

    /** A CKB top-up moves cells from the iterator to the inputs, enough of them or all. */
    method AddCkbInputs(need: uint64, provided: AssetInformation)
        returns (error: Option<BuildError>, ghost taken: seq<TransactionInput>)
      requires StreamsAgree() && GroupsIndexed() && AllLive()
      requires provided.knownUDTs == knownUDTs && provided.Tracks(InCells(), 0)
      modifies this`iterators, this`inputs, this`witnesses, this`scriptGroups, provided
      ensures StreamsAgree() && GroupsIndexed()
      ensures error == None ==>
                && AllLive() && provided.Tracks(InCells(), 0) && Extends()
                && InCkb() + Reserve() == old(InCkb() + Reserve()) && InCkb() >= old(InCkb())
                && (old(InCkb() + Reserve()) < TWO_64 ==>
                      InCkb() - old(InCkb()) >= need || Drained())
      ensures error == None ==> ZERO_HASH in old(iterators) && old(iterators)[ZERO_HASH] != []
      ensures error == None ==> Took(ZERO_HASH, old(iterators), old(inputs), taken, need)
      ensures error == None ==> InCkb() == old(InCkb()) + Total(knownUDTs, ZERO_HASH, CellsOf(taken))
      ensures error == None && old(NoNilCkbCell()) ==> NoNilCkbCell()
      ensures error.Some? && changeLock in scriptGroupMap && old(NoNilCkbCell()) ==> old(Reserve()) == 0
      ensures error == None && old(TypePure()) ==> TypePure() && forall u :: u in knownUDTs ==> In64(u) == old(In64(u))
      ensures error == None && old(FundingCellsMatch()) ==>
              FundingCellsMatch() && (old(GroupsExact()) ==> GroupsExact())
    {
      hide Separate, StuckAtNil, Exact, Refs, Resolve, OutputsOf, Total, StreamAgrees, StreamMatches, StreamPure, Live,
           AllShort, CellsOf, OutPointsOf;
      error, taken := AddFunding(ZERO_HASH, need, provided);
      if error == Some(NilCell) {
        StuckHasNil(knownUDTs, ZERO_HASH, old(iterators)[ZERO_HASH], need);
      }
      if error == None {
        TotalConcat(knownUDTs, ZERO_HASH, old(InCells()), CellsOf(taken));
        StreamTotalConcat(knownUDTs, ZERO_HASH, StreamOf(taken), iterators[ZERO_HASH]);
        StreamTotalOf(knownUDTs, ZERO_HASH, taken);
        if old(InCkb() + Reserve()) < TWO_64 {
          WrapSmall(Total(knownUDTs, ZERO_HASH, CellsOf(taken)));
        }
      }
    }

    /** The second top-up, for the rent of the change cell. */
    method TopUpRent(required: AssetInformation, provided: AssetInformation)
        returns (error: Option<BuildError>, ghost taken: seq<TransactionInput>)
      requires required != provided && Booked(required, provided)
      modifies this`iterators, this`inputs, this`witnesses, this`scriptGroups, provided
      ensures error == None ==> Booked(required, provided) && Extends()
      ensures error == None && old(Roomy()) ==>
              Roomy() && InCkb() >= old(InCkb()) && (InCkb() >= DueCkb() + CkbChangeCellCapacity() || Drained())
      ensures error == None && old(Roomy() && Drained()) ==> InCkb() >= DueCkb() + CkbChangeCellCapacity() && Drained()
      ensures error == None && old(Roomy()) ==>
                && InCkb() == old(InCkb()) + Total(knownUDTs, ZERO_HASH, CellsOf(taken))
                && if old(InCkb() >= DueCkb() + CkbChangeCellCapacity()) then
                     taken == [] && inputs == old(inputs) && iterators == old(iterators)
                   else Took(ZERO_HASH, old(iterators), old(inputs), taken, old(RentShortfall()))
      ensures old(Roomy() && Affordable()) ==> error == None && InCkb() >= DueCkb() + CkbChangeCellCapacity()
      ensures error == None && old(TypePure()) ==> TypePure() && forall u :: u in knownUDTs ==> In64(u) == old(In64(u))
      ensures error == None && old(FundingCellsMatch()) ==>
              FundingCellsMatch() && (old(GroupsExact()) ==> GroupsExact())
    {
      hide Separate, Exact, Refs, Resolve, OutputsOf, Total, OutputCells, StreamAgrees, StreamMatches, StreamPure, Live,
           Expected, RequiredCapacity, GroupsIndexed, Shortest, CellsOf, StreamOf, OutPointsOf;
      Narrow();
      NothingTaken(knownUDTs);
      GrowsSelf(changeLock, Body());
      error, taken := None, [];
      var enough := Add64(required.AssetAmount(ZERO_HASH), CkbChangeCellCapacity());
      if provided.AssetAmount(ZERO_HASH) < enough {
        error, taken := AddCkbInputs(Sub64(enough, provided.AssetAmount(ZERO_HASH)), provided);
      }
    }

    static lemma {:induction false} NothingTaken(known: set<Script>)
      ensures CellsOf([]) == [] && Total(known, ZERO_HASH, CellsOf([])) == 0
    {}

    /** What the inputs lack for paying everything due and the rent of a change cell. */
    ghost function RentShortfall(): uint64
      requires AllLive() && |outputs| == |outputsData| && Roomy() && InCkb() < DueCkb() + CkbChangeCellCapacity()
      reads `inputs, `outputs, `outputsData, `iterators
    {
      DueCkb() + CkbChangeCellCapacity() - InCkb()
    }

    /** The first top-up, for what is due; the difference wraps around if that is exceeded already. */
    method TopUpDue(required: AssetInformation, provided: AssetInformation)
      returns (error: Option<BuildError>, ghost taken: seq<TransactionInput>, ghost missing: uint64)
      requires required != provided && Booked(required, provided)
      requires provided.AssetAmount(ZERO_HASH) < Add64(required.AssetAmount(ZERO_HASH), CkbChangeCellCapacity())
      modifies this`iterators, this`inputs, this`witnesses, this`scriptGroups, provided
      ensures error == None ==> Booked(required, provided) && Extends()
      ensures error == None && old(Roomy()) ==>
                && Roomy() && InCkb() == old(InCkb()) + Total(knownUDTs, ZERO_HASH, CellsOf(taken))
                   && (InCkb() >= DueCkb() || Drained())
      ensures error == None && old(Roomy() && InCkb() <= DueCkb()) ==>
                missing == old(DueCkb() - InCkb()) && Took(ZERO_HASH, old(iterators), old(inputs), taken, missing)
      ensures error == None && old(Roomy() && InCkb() > DueCkb()) ==> Drained()
      ensures old(Roomy() && Affordable()) ==> error == None && Affordable()
      ensures error == None && old(TypePure()) ==> TypePure() && forall u :: u in knownUDTs ==> In64(u) == old(In64(u))
      ensures error == None && old(FundingCellsMatch()) ==>
              FundingCellsMatch() && (old(GroupsExact()) ==> GroupsExact())
    {
      hide Separate, Exact, Refs, Resolve, OutputsOf, Total, OutputCells, StreamAgrees, StreamMatches, StreamPure, Live,
           Expected, RequiredCapacity, GroupsIndexed, Shortest, CellsOf, StreamOf, OutPointsOf, Yielded, StreamTotal,
           Took;
      Narrow();
      missing := Sub64(required.AssetAmount(ZERO_HASH), provided.AssetAmount(ZERO_HASH));
      error, taken := AddCkbInputs(Sub64(required.AssetAmount(ZERO_HASH), provided.AssetAmount(ZERO_HASH)), provided);
    }

    /** The two CKB top-ups: first for what is due, then for the rent of the change cell. If the first one falls
        short it leaves the iterator empty, and then the second one fails; so afterwards nothing is missing. */
    method TopUpCkb(required: AssetInformation, provided: AssetInformation)
        returns (error: Option<BuildError>, ghost taken: seq<TransactionInput>)
      requires required != provided && Booked(required, provided)
      requires provided.AssetAmount(ZERO_HASH) < Add64(required.AssetAmount(ZERO_HASH), CkbChangeCellCapacity())
      modifies this`iterators, this`inputs, this`witnesses, this`scriptGroups, provided
      ensures error == None ==> Booked(required, provided) && Extends()
      ensures error == None && old(Roomy()) ==> Roomy() && Covered()
      // both top-ups together take the shortest prefix that pays for what is due and the rent of a change cell
      ensures error == None && old(Roomy() && InCkb() <= DueCkb() && InCkb() < DueCkb() + CkbChangeCellCapacity()) ==>
                Took(ZERO_HASH, old(iterators), old(inputs), taken, old(RentShortfall()))
      // the subtraction wraps around when more than what is due is provided already, and then everything is fetched
      ensures error == None && old(Roomy() && InCkb() > DueCkb()) ==> Drained()
      ensures old(Roomy() && Affordable()) ==> error == None && InCkb() >= DueCkb() + CkbChangeCellCapacity()
      ensures error == None && old(TypePure()) ==> TypePure() && forall u :: u in knownUDTs ==> In64(u) == old(In64(u))
      ensures error == None && old(FundingCellsMatch()) ==>
              FundingCellsMatch() && (old(GroupsExact()) ==> GroupsExact())
    {
      hide Separate, Exact, Refs, Resolve, OutputsOf, Total, OutputCells, StreamAgrees, StreamMatches, StreamPure, Live,
           Expected, RequiredCapacity, GroupsIndexed, Shortest, CellsOf, StreamOf, OutPointsOf, Yielded, StreamTotal,
           Took, NothingTwice, FundingCellsMatch, TypePure, GroupsExact, Grows, Reserve, NoNilCkbCell;
      ghost var body := Body();
      ghost var missing;
      error, taken, missing := TopUpDue(required, provided);
      if error.Some? {
        return;
      }
      ghost var first, between, ops, middle := taken, iterators, inputs, Body();
      if old(Roomy() && InCkb() <= DueCkb()) {
        TookMeans(old(iterators), old(inputs), first, missing);
      }
      ghost var second;
      error, second := TopUpRent(required, provided);
      if error == None {
        GrowsOn(changeLock, body, middle, Body());
        if old(Roomy() && InCkb() <= DueCkb() && InCkb() < DueCkb() + CkbChangeCellCapacity()) {
          taken := TookInAll(old(iterators), between, old(inputs), ops, first, second, missing, old(InCkb()),
                             DueCkb() + CkbChangeCellCapacity());
        }
      }
    }

    lemma {:induction false} TookInAll(
      before: map<Hash, CellStream>, between: map<Hash, CellStream>, ops: seq<OutPoint>, more: seq<OutPoint>,
      a: seq<TransactionInput>, b: seq<TransactionInput>, first: uint64, had: nat, enough: nat)
      returns (taken: seq<TransactionInput>)
      requires ZERO_HASH in before && ZERO_HASH in between && between == before[ZERO_HASH := between[ZERO_HASH]]
      requires Shortest(knownUDTs, ZERO_HASH, before[ZERO_HASH], between[ZERO_HASH], a, first)
               && more == ops + OutPointsOf(a)
      requires had + first <= enough && had < enough < TWO_64
      requires had + Total(knownUDTs, ZERO_HASH, CellsOf(a)) + Total(knownUDTs, ZERO_HASH, CellsOf(b)) < TWO_64
      requires var have := had + Total(knownUDTs, ZERO_HASH, CellsOf(a));
               if have >= enough then inputs == more && iterators == between
               else Took(ZERO_HASH, between, more, b, enough - have)
      ensures Took(ZERO_HASH, before, ops, taken, enough - had)
    {
      hide Shortest, Total, CellsOf, StreamOf, OutPointsOf;
      var have := had + Total(knownUDTs, ZERO_HASH, CellsOf(a));
      if have >= enough {
        taken := a;
        ShortestYields(knownUDTs, before[ZERO_HASH], iterators[ZERO_HASH], a, first);
        TookEnough(before, ops, a, first, enough - had);
      } else {
        taken := a + b;
        TookTwice(before, between, ops, more, a, b, first, enough - have, enough - had);
      }
    }

    lemma {:induction false} TookMeans(before: map<Hash, CellStream>, ops: seq<OutPoint>, taken: seq<TransactionInput>,
                                       need: uint64)
      requires Took(ZERO_HASH, before, ops, taken, need)
      ensures ZERO_HASH in before && ZERO_HASH in iterators && iterators == before[ZERO_HASH := iterators[ZERO_HASH]]
      ensures inputs == ops + OutPointsOf(taken)
              && Shortest(knownUDTs, ZERO_HASH, before[ZERO_HASH], iterators[ZERO_HASH], taken, need)
    {}

    lemma {:induction false} TookEnough(before: map<Hash, CellStream>, ops: seq<OutPoint>, taken: seq<TransactionInput>,
                                        first: uint64, need: uint64)
      requires Took(ZERO_HASH, before, ops, taken, first) && first <= need
               && Total(knownUDTs, ZERO_HASH, CellsOf(taken)) < TWO_64
      requires Total(knownUDTs, ZERO_HASH, CellsOf(taken)) >= need
      ensures Took(ZERO_HASH, before, ops, taken, need)
    {
      WrapSmall(Total(knownUDTs, ZERO_HASH, CellsOf(taken)));
      ShortestIsEnough(knownUDTs, before[ZERO_HASH], iterators[ZERO_HASH], taken, first, need);
    }

    lemma {:induction false} TookTwice(
      before: map<Hash, CellStream>, between: map<Hash, CellStream>, ops: seq<OutPoint>, more: seq<OutPoint>,
      a: seq<TransactionInput>, b: seq<TransactionInput>, first: uint64, rest: uint64, need: uint64)
      requires ZERO_HASH in before && ZERO_HASH in between && between == before[ZERO_HASH := between[ZERO_HASH]]
      requires Shortest(knownUDTs, ZERO_HASH, before[ZERO_HASH], between[ZERO_HASH], a, first)
               && more == ops + OutPointsOf(a)
      requires Took(ZERO_HASH, between, more, b, rest) && first <= need && rest > 0
      requires Total(knownUDTs, ZERO_HASH, CellsOf(a)) + rest == need
      requires Total(knownUDTs, ZERO_HASH, CellsOf(a)) + Total(knownUDTs, ZERO_HASH, CellsOf(b)) < TWO_64
      ensures Took(ZERO_HASH, before, ops, a + b, need)
    {
      hide Shortest, Total, CellsOf, StreamOf, OutPointsOf;
      ShortestTwice(knownUDTs, before[ZERO_HASH], between[ZERO_HASH], iterators[ZERO_HASH], a, b, first, rest, need);
      ShortestYields(knownUDTs, before[ZERO_HASH], iterators[ZERO_HASH], a + b, need);
      ConcatTaken(a, b);
    }

    static lemma {:induction false} ShortestYields(known: set<Script>, s0: CellStream, s1: CellStream,
                                                   taken: seq<TransactionInput>, need: uint64)
      requires Shortest(known, ZERO_HASH, s0, s1, taken, need)
      ensures s0 == StreamOf(taken) + s1
    {}

    predicate Drained()
      reads `iterators
    {
      ZERO_HASH in iterators && iterators[ZERO_HASH] == []
    }

    /** What is due is paid for, and the rent of a change cell too unless the CKB iterator ran dry. */
    ghost predicate Covered()
      requires AllLive() && |outputs| == |outputsData|
      reads `inputs, `outputs, `outputsData, `iterators
    {
      && InCkb() >= DueCkb()
      && (InCkb() >= DueCkb() + CkbChangeCellCapacity() || Drained())
    }

    /** The CKB change cell for everything provided above what is due. */
    method AddCkbChange(change: uint64)
      requires Valid() && AllLive() && changeLock in scriptGroupMap && ckbChangeCellIndex == -1
      requires change == Sub64(In64(ZERO_HASH), Due64())
      modifies this`outputs, this`outputsData, this`ckbChangeCellIndex, this`udtChangeCellIndices, this`scriptGroups
      ensures CkbCompleted()
      ensures old(Roomy() && Covered()) ==> ChangeCovered(old(DueCkb()))
      ensures old(Roomy() && InCkb() >= DueCkb() + CkbChangeCellCapacity()) ==>
                outputs[ckbChangeCellIndex].capacity >= CkbChangeCellCapacity()
    {
      hide Separate, Exact, Refs, Resolve, OutputsOf, Total, OutputCells, StreamAgrees, StreamMatches, StreamPure, Live,
           Expected, RequiredCapacity, GroupsIndexed, StreamTotal;
      Narrow();
      AddOrUpdateChangeCell(ZERO_HASH, change);
    }

    method AddInputsAndChangeForCKB(required: AssetInformation, provided: AssetInformation)
      returns (error: Option<BuildError>, ghost taken: seq<TransactionInput>)
      requires required != provided && Booked(required, provided) && ckbChangeCellIndex == -1
      requires provided.AssetAmount(ZERO_HASH) < Add64(required.AssetAmount(ZERO_HASH), CkbChangeCellCapacity())
      modifies this, required, provided
      ensures error == None ==> CkbCompleted()
      ensures error == None && old(Roomy()) ==> ChangeCovered(old(DueCkb()))
      ensures error == None && old(Roomy() && InCkb() <= DueCkb() && InCkb() < DueCkb() + CkbChangeCellCapacity()) ==>
                Took(ZERO_HASH, old(iterators), old(inputs), taken, old(RentShortfall()))
      ensures error == None && old(Roomy() && InCkb() > DueCkb()) ==> Drained()
      ensures old(Roomy() && Affordable()) ==>
                error == None && outputs[ckbChangeCellIndex].capacity >= CkbChangeCellCapacity()
    {
      hide Separate, Exact, Refs, Resolve, OutputsOf, Total, OutputCells, StreamAgrees, StreamMatches, StreamPure, Live,
           Expected, RequiredCapacity, GroupsIndexed, StreamTotal, Shortest, OutPointsOf;
      error, taken := TopUpCkb(required, provided);
      if error == None {
        var change := Sub64(provided.AssetAmount(ZERO_HASH), required.AssetAmount(ZERO_HASH));
        required.AddAssetAmount(ZERO_HASH, CkbChangeCellCapacity());
        AddCkbChange(change);
      }
    }

    method CompleteCKBCapacity(required: AssetInformation, provided: AssetInformation)
      returns (error: Option<BuildError>, ghost taken: seq<TransactionInput>)
      requires required != provided && Booked(required, provided) && ckbChangeCellIndex == -1
      modifies this, required, provided
      ensures error == None ==> CkbCompleted()
      ensures error == None && old(Roomy()) ==> ChangeCovered(old(DueCkb()))
      // the cells taken: the shortest prefix that is enough; or all, if what is due is paid already; or none, if the
      // rent is too
      ensures error == None && old(Roomy() && InCkb() <= DueCkb() && InCkb() < DueCkb() + CkbChangeCellCapacity()) ==>
                Took(ZERO_HASH, old(iterators), old(inputs), taken, old(RentShortfall()))
      ensures error == None && old(Roomy() && DueCkb() < InCkb() < DueCkb() + CkbChangeCellCapacity()) ==> Drained()
      ensures error == None && old(Roomy() && InCkb() >= DueCkb() + CkbChangeCellCapacity()) ==>
                inputs == old(inputs) && iterators == old(iterators)
      ensures old(Roomy() && Affordable()) ==>
                error == None && outputs[ckbChangeCellIndex].capacity >= CkbChangeCellCapacity()
    {
      hide Separate, Exact, Refs, Resolve, OutputsOf, Total, OutputCells, StreamAgrees, StreamMatches, StreamPure, Live,
           Expected, RequiredCapacity, GroupsIndexed, StreamTotal;
      var providedCKB, requiredCKB := provided.AssetAmount(ZERO_HASH), required.AssetAmount(ZERO_HASH);
      taken := [];
      Narrow();
      if providedCKB >= Add64(requiredCKB, CkbChangeCellCapacity()) {
        AddCkbChange(Sub64(providedCKB, requiredCKB));
        return None, taken;
      }
      if providedCKB < Add64(requiredCKB, CkbChangeCellCapacity()) {
        error, taken := AddInputsAndChangeForCKB(required, provided);
        return;
      }
      assert false;
      error := None;
    }

    /** CKBytes balance modulo 2^64; exactly one output was added, the CKB change cell; UDTs are as they were. */
    twostate predicate CkbCompleted()
      requires old(AllLive() && ChangeTablesIndexed())
      reads this
    {
      && Valid() && AllLive() && In64(ZERO_HASH) == Due64()
      && Extends() && |outputs| == |old(outputs)| + 1 && ckbChangeCellIndex == |old(outputs)|
      && outputs[ckbChangeCellIndex].typ == None
      && (forall u :: u in knownUDTs ==> Out64(u) == old(Out64(u)))
      && (old(TypePure()) ==> forall u :: u in knownUDTs ==> In64(u) == old(In64(u)))
      && (old(FundingCellsMatch() && GroupsExact()) ==> GroupsExact())
    }

    /** The change is the true surplus, without underflow, and pays its own rent unless the CKB iterator ran dry. */
    ghost predicate ChangeCovered(due: nat)
      reads this
    {
      && AllLive() && 0 <= ckbChangeCellIndex < |outputs|
      && InCkb() == due + outputs[ckbChangeCellIndex].capacity
      && (outputs[ckbChangeCellIndex].capacity >= CkbChangeCellCapacity() || Drained())
    }

    // ---------- balanceTransaction ----------

    method AccumulateOutputs(required: AssetInformation)
      requires |outputs| == |outputsData| && required.knownUDTs == knownUDTs && required.Tracks([], feeShannon)
      requires required.assetAmounts.Keys == {ZERO_HASH}
      modifies required
      ensures required.Tracks(OutCells(), feeShannon)
      ensures required.assetAmounts.Keys == {ZERO_HASH} + Present(knownUDTs, OutCells())
    {
      hide Expected, Total;
      for i := 0 to |outputs|
        invariant required.Tracks(OutCells()[..i], feeShannon)
        invariant required.assetAmounts.Keys == old(required.assetAmounts.Keys) + Present(knownUDTs, OutCells()[..i])
      {
        var cell := Cell(outputs[i], outputsData[i]);
        required.AddValuesFromOutput(cell, OutCells()[..i], feeShannon);
        PresentAppend(knownUDTs, OutCells()[..i], cell);
        assert OutCells()[..i + 1] == OutCells()[..i] + [cell];
      }
      assert OutCells()[..|outputs|] == OutCells();
    }

    method AccumulateInputs(provided: AssetInformation) returns (error: Option<BuildError>)
      requires provided.knownUDTs == knownUDTs && provided.Tracks([], 0) && provided.assetAmounts == map[]
      modifies provided
      ensures error == None <==> AllLive()
      ensures error.Some? ==> error == Some(NotLive)
      ensures AllLive() ==> provided.Tracks(InCells(), 0) && provided.assetAmounts.Keys == Present(knownUDTs, InCells())
    {
      assert inputs[..0] == [] && Present(knownUDTs, []) == {};
      hide Expected, Total, Present, Holding;
      ghost var cells: seq<Cell> := [];
      for i := 0 to |inputs|
        invariant Live(live, inputs[..i]) && cells == Resolve(live, inputs[..i])
        invariant provided.Tracks(cells, 0) && provided.assetAmounts.Keys == Present(knownUDTs, cells)
      {
        if inputs[i] !in live {
          return Some(NotLive);
        }
        ResolveAppend(live, inputs[..i], inputs[i]);
        assert inputs[..i + 1] == inputs[..i] + [inputs[i]];
        var cell := live[inputs[i]];
        provided.AddValuesFromOutput(cell, cells, 0);
        PresentAppend(knownUDTs, cells, cell);
        cells := cells + [cell];
      }
      assert inputs[..|inputs|] == inputs;
      error := None;
    }

    /** EqualAssets on the totals of these inputs and outputs: the early exit of balanceTransaction. */
    static ghost predicate LooksBalanced(known: set<Script>, ins: seq<Cell>, outs: seq<Cell>, fee: uint64) {
      && |Present(known, ins)| == |Present(known, outs) + {ZERO_HASH}|
      && forall h :: h in Present(known, ins) ==> Expected(known, h, outs, fee) == Expected(known, h, ins, 0)
    }

    /** By how much, modulo 2^64, the outputs of UDT u will exceed its inputs after balancing: nothing, unless
        balancing stops early or never visits u, or the inputs already provide part of what the outputs need. */
    static ghost function Excess(known: set<Script>, ins: seq<Cell>, outs: seq<Cell>, fee: uint64, u: Script): uint64 {
      var provided, required := Expected(known, u, ins, 0), Expected(known, u, outs, 0);
      if LooksBalanced(known, ins, outs, fee) || u !in Present(known, outs) then Sub64(required, provided)
      else Gap(provided, required)
    }

    /** What the loop makes of UDT u: if inputs are missing, it asks for those, less what is provided already. */
    ghost predicate Fundable(u: Script, already: uint64, wanted: uint64)
      reads `iterators
    {
      already < wanted ==> Meets(u, already, wanted - already)
    }

    /** One pass of the loop over the required assets. */
    method BalanceUDT(u: Script, required: AssetInformation, provided: AssetInformation)
        returns (error: Option<BuildError>)
      requires required != provided && Booked(required, provided)
      requires u in knownUDTs && udtChangeCellIndices[u] == -1 && required.AssetAmount(u) == Out64(u)
      modifies this, required, provided
      ensures error == None ==> Booked(required, provided) && OnlyTouches(u, required)
      ensures error == None ==>
                Out64(u) == Add64(In64(u), Gap(old(In64(u)), old(Out64(u))))
      ensures u in old(scriptGroupMap) && old(In64(u) + Stock(u)) < TWO_64 ==>
                (error == None <==> old(Fundable(u, In64(u), Out64(u))))
      ensures error == None ==> TakesFrom(u) && DueCkb() <= old(DueCkb()) + RequiredCapacity(u)
    {
      hide Separate, Exact, Refs, Resolve, OutputsOf, Expected, Total, OutputCells, StreamAgrees, StreamMatches,
           StreamPure, Live, GroupsIndexed, RequiredCapacity, ChangeData, Stock, Yields, StreamTotal, CkbOf, Took;
      var requiredAmount := required.AssetAmount(u);
      var alreadyProvidedAmount := provided.AssetAmount(u);
      assert alreadyProvidedAmount == In64(u);
      if alreadyProvidedAmount == requiredAmount && requiredAmount > 0 {
        return None;
      }
      if alreadyProvidedAmount < requiredAmount {
        ghost var taken;
        error, taken := AddInputsAndChangeForFunding(u, Sub64(requiredAmount, alreadyProvidedAmount), required,
                                                     provided);
        return;
      }
      if alreadyProvidedAmount > requiredAmount {
        AddChangeAndAdjustRequiredFunding(u, Sub64(alreadyProvidedAmount, requiredAmount), required);
        return None;
      }
      error := None;
    }

    /** What the outputs of u exceed its inputs by once the loop has visited u. */
    static ghost function Gap(provided: uint64, required: uint64): uint64 {
      if 0 < provided < required then provided else 0
    }

    static lemma {:induction false} PresentGrouped(
      groups: seq<ScriptGroup>, index: map<Script, nat>, ins: seq<Ref>, known: set<Script>, outs: seq<CellOutput>,
      data: seq<Bytes>, u: Script)
      requires |outs| == |data| && Exact(groups, index, ins, Refs(outs))
      requires u in Present(known, OutputCells(outs, data))
      ensures u in index
    {
      PresentIndex(known, OutputCells(outs, data), u);
      PickMembers(u, outs);
      var i: nat :| i < |outs| && outs[i].typ == Some(u);
      assert RefersTo(outs[i], u);
      assert i in Pick(u, Refs(outs));
    }

    static lemma {:induction false} PresentIndex(known: set<Script>, cells: seq<Cell>, u: Script)
      requires u in Present(known, cells)
      ensures exists i: nat :: i < |cells| && cells[i].output.typ == Some(u)
    {
      var n := |cells| - 1;
      if cells[n].output.typ != Some(u) {
        PresentIndex(known, cells[..n], u);
        var i: nat :| i < n && cells[..n][i].output.typ == Some(u);
        assert cells[i].output.typ == Some(u);
      }
    }

    /** How far the loop has come: `todo` is still to be visited. */
    ghost predicate Progress(todo: set<Hash>, plan: Plan)
      requires plan.For(knownUDTs)
      reads this
    {
      && AllLive() && ChangeTablesIndexed() && ckbChangeCellIndex == -1 && (plan.pure ==> TypePure())
      && forall u :: u in knownUDTs ==>
           if u in plan.all && u !in todo
           then plan.pure ==> Out64(u) == Add64(In64(u), Gap(plan.given[u], plan.wanted[u]))
           else ChangeCellIndex(u) == -1 && Out64(u) == plan.wanted[u] && (plan.pure ==> In64(u) == plan.given[u])
    }

    // ---------- what all UDTs together need ----------

    static ghost function SumOf(m: map<Hash, nat>, s: set<Hash>): nat
      requires s <= m.Keys
    {
      if s == {} then 0
      else
        var h :| h in s;
        m[h] + SumOf(m, s - {h})
    }

    static lemma {:induction false} SumWithout(m: map<Hash, nat>, s: set<Hash>, h: Hash)
      requires s <= m.Keys && h in s
      ensures SumOf(m, s) == m[h] + SumOf(m, s - {h})
    {
      var k :| k in s && SumOf(m, s) == m[k] + SumOf(m, s - {k});
      if k != h {
        SumWithout(m, s - {k}, h);
        SumWithout(m, s - {h}, k);
        assert s - {k} - {h} == s - {h} - {k};
      }
    }

    /** The UDTs the loop visits: those of the outputs. */
    ghost function Visited(): set<Hash>
      requires |outputs| == |outputsData|
      reads `outputs, `outputsData
    {
      Present(knownUDTs, OutCells()) - {ZERO_HASH}
    }

    /** The rent of a change cell for each of them, and the CKBytes of the cells their iterators hold. */
    ghost function Rents(): map<Hash, nat>
      requires |outputs| == |outputsData|
      reads `outputs, `outputsData
    {
      map h | h in Visited() :: RequiredCapacity(h)
    }

    ghost function CkbStocks(): map<Hash, nat>
      requires |outputs| == |outputsData|
      reads `outputs, `outputsData, `iterators
    {
      map h | h in Visited() :: CkbOf(h)
    }

    /** Every UDT the loop visits can be funded. */
    ghost predicate AllFundable()
      requires AllLive() && |outputs| == |outputsData|
      reads `inputs, `outputs, `outputsData, `iterators
    {
      forall u :: u in Visited() ==> Fundable(u, In64(u), Out64(u))
    }

    /** No sum of theirs wraps around, and no iterator yields cells of another one. */
    ghost predicate UdtRoom()
      requires AllLive() && |outputs| == |outputsData|
      reads `inputs, `outputs, `outputsData, `iterators
    {
      TypePure() && forall u :: u in Visited() ==> In64(u) + Stock(u) < TWO_64
    }

    /** How things stand for the UDTs still to be visited: which of them could be funded from the start, and that what
        they can bring in and need of CKBytes stays within bounds. */
    ghost predicate Ahead(todo: set<Hash>, plan: Plan)
      requires AllLive() && |outputs| == |outputsData| && plan.For(knownUDTs) && todo <= plan.all
      reads `inputs, `outputs, `outputsData, `iterators
    {
      && InCkb() + SumOf(plan.stocks, todo) <= plan.inCkb && DueCkb() + SumOf(plan.rents, todo) <= plan.dueCkb
      && (forall u :: u in todo ==> plan.stocks[u] == CkbOf(u) && plan.rents[u] == RequiredCapacity(u))
      && (forall u :: u in todo ==> (u in plan.could <==> Fundable(u, plan.given[u], plan.wanted[u])))
      && (forall u :: u in todo && plan.room ==> plan.given[u] + Stock(u) < TWO_64)
    }

    /** What all UDTs together can bring in and need of CKBytes. */
    ghost function UdtCkb(): nat
      requires |outputs| == |outputsData|
      reads `outputs, `outputsData, `iterators
    {
      SumOf(CkbStocks(), Visited())
    }

    ghost function UdtRents(): nat
      requires |outputs| == |outputsData|
      reads `outputs, `outputsData
    {
      SumOf(Rents(), Visited())
    }

    ghost function PlanNow(): (plan: Plan)
      requires AllLive() && ChangeTablesIndexed()
      reads `inputs, `outputs, `outputsData, `iterators, `ckbChangeCellIndex, `udtChangeCellIndices
      ensures plan.For(knownUDTs)
    {
      var given, wanted := map u | u in knownUDTs :: In64(u), map u | u in knownUDTs :: Out64(u);
      var could := set u | u in Visited() && Fundable(u, given[u], wanted[u]);
      Plan(Visited(), given, wanted, could, CkbStocks(), Rents(), InCkb() + UdtCkb(), DueCkb() + UdtRents(), TypePure(),
           UdtRoom())
    }

    lemma {:induction false} PlanStarts()
      requires AllLive() && ChangeTablesIndexed() && Unbalanced()
      ensures AllFundable() <==> Visited() <= PlanNow().could
      ensures Going(Visited(), PlanNow())
    {
      hide Fundable, Stock, CkbOf, SumOf, InCkb, DueCkb, Present, UdtRoom, In64, Out64, TypePure;
      VisitedAre();
      RoomMeans();
      assert Progress(Visited(), PlanNow());
      assert Ahead(Visited(), PlanNow());
    }

    lemma {:induction false} RoomMeans()
      requires AllLive() && |outputs| == |outputsData|
      ensures UdtRoom() ==> TypePure() && forall u :: u in Visited() ==> In64(u) + Stock(u) < TWO_64
    {}

    /** Where the loop stands: what it has done, and how things stand for the rest. */
    ghost predicate Going(todo: set<Hash>, plan: Plan)
      reads this
    {
      && AllLive() && |outputs| == |outputsData| && plan.For(knownUDTs) && todo <= plan.all
      && Progress(todo, plan) && Ahead(todo, plan) && (plan.room ==> plan.pure)
    }

    lemma {:induction false} GoingAt(todo: set<Hash>, plan: Plan, u: Hash)
      requires Going(todo, plan)
      ensures plan.For(knownUDTs) && AllLive() && ChangeTablesIndexed() && InCkb() <= plan.inCkb
              && DueCkb() <= plan.dueCkb
      ensures u in todo ==>
                && u in knownUDTs && ChangeCellIndex(u) == -1 && Out64(u) == plan.wanted[u]
                && (plan.pure ==> TypePure() && In64(u) == plan.given[u])
                && (u in plan.could <==> Fundable(u, plan.given[u], plan.wanted[u]))
                && (plan.room ==> In64(u) + Stock(u) < TWO_64)
    {
      hide Fundable, Stock, CkbOf, SumOf, InCkb, DueCkb, In64, Out64, TypePure;
    }

    method VisitUDT(u: Script, ghost todo: set<Hash>, ghost plan: Plan, required: AssetInformation,
                    provided: AssetInformation)
      returns (error: Option<BuildError>)
      requires required != provided && Booked(required, provided)
      requires plan.For(knownUDTs) && todo <= plan.all && Progress(todo, plan) && u in todo
      requires forall v :: v in knownUDTs ==> required.AssetAmount(v) == plan.wanted[v]
      modifies this, required, provided
      ensures error == None ==> Booked(required, provided) && Extends() && scriptGroupMap == old(scriptGroupMap)
      ensures error == None ==> Progress(todo - {u}, plan)
      ensures error == None ==> forall v :: v in knownUDTs ==> required.AssetAmount(v) == plan.wanted[v]
      ensures error == None && old(FundingCellsMatch() && GroupsExact()) && u in scriptGroupMap ==>
              FundingCellsMatch() && GroupsExact()
      ensures u in old(scriptGroupMap) && old(In64(u) + Stock(u)) < TWO_64 ==>
                (error == None <==> old(Fundable(u, In64(u), Out64(u))))
      ensures error == None ==> TakesFrom(u) && DueCkb() <= old(DueCkb()) + RequiredCapacity(u)
    {
      hide Separate, Exact, Refs, Resolve, OutputsOf, Expected, Total, OutputCells, StreamAgrees, StreamMatches,
           StreamPure, Live, GroupsIndexed, RequiredCapacity, ChangeData, Add64, Grows, Stock, Fundable, CkbOf, Booked,
           TakesFrom, InCkb, DueCkb, TypePure, FundingCellsMatch, GroupsExact, NothingTwice, In64, Out64, Gap;
      BookedValid(required, provided);
      error := BalanceUDT(u, required, provided);
      if error == None {
        BookedValid(required, provided);
      }
    }

    /** One turn of the loop, with what it means for the turns to come. */
    method VisitNext(u: Script, ghost todo: set<Hash>, ghost plan: Plan, required: AssetInformation,
                     provided: AssetInformation)
      returns (error: Option<BuildError>)
      requires required != provided && Booked(required, provided) && Going(todo, plan) && u in todo
      requires forall v :: v in knownUDTs ==> required.AssetAmount(v) == plan.wanted[v]
      modifies this, required, provided
      ensures error == None ==> Booked(required, provided) && Extends() && scriptGroupMap == old(scriptGroupMap)
      ensures error == None ==> Going(todo - {u}, plan)
      ensures error == None ==> forall v :: v in knownUDTs ==> required.AssetAmount(v) == plan.wanted[v]
      ensures error == None && old(FundingCellsMatch() && GroupsExact()) && u in scriptGroupMap ==>
              FundingCellsMatch() && GroupsExact()
      ensures u in old(scriptGroupMap) && plan.room ==> (error == None <==> u in plan.could)
      ensures error == None ==> CkbUntouched() && old(InCkb()) <= InCkb()
    {
      hide Separate, Exact, Refs, Resolve, OutputsOf, Expected, Total, OutputCells, StreamAgrees, StreamMatches,
           StreamPure, Live, GroupsIndexed, RequiredCapacity, ChangeData, Grows, Progress, StreamTotal, StuckAtNil,
           Booked, FundingCellsMatch, GroupsExact, SumOf, InCkb, DueCkb, TypePure, NothingTwice, In64, Out64;
      GoingAt(todo, plan, u);
      SumWithout(plan.stocks, todo, u);
      SumWithout(plan.rents, todo, u);
      BookedValid(required, provided);
      error := VisitUDT(u, todo, plan, required, provided);
      if error == None {
        BookedValid(required, provided);
        assert Ahead(todo - {u}, plan);
      }
    }

    lemma {:induction false} BookedValid(required: AssetInformation, provided: AssetInformation)
      requires Booked(required, provided)
      ensures AllLive() && ChangeTablesIndexed() && |outputs| == |outputsData|
    {}

    /** The CKB iterator is as it was. */
    twostate predicate CkbUntouched()
      reads `iterators
    {
      (ZERO_HASH in iterators <==> ZERO_HASH in old(iterators)) &&
      (ZERO_HASH in iterators ==> iterators[ZERO_HASH] == old(iterators)[ZERO_HASH])
    }

    /** The loop over the required assets, in whatever order the Go map yields them. */
    method BalanceUDTs(required: AssetInformation, provided: AssetInformation, ghost plan: Plan)
      returns (error: Option<BuildError>)
      requires required != provided && Booked(required, provided)
      requires required.assetAmounts.Keys == {ZERO_HASH} + plan.all && ZERO_HASH !in plan.all && Going(plan.all, plan)
      requires forall u :: u in knownUDTs ==> required.AssetAmount(u) == plan.wanted[u]
      modifies this, required, provided
      ensures error == None ==> Booked(required, provided) && Extends() && Going({}, plan)
      ensures error == None && old(FundingCellsMatch() && GroupsExact()) && plan.all <= old(scriptGroupMap).Keys ==>
              FundingCellsMatch() && GroupsExact()
      // it succeeds exactly if every UDT can be funded
      ensures plan.all <= old(scriptGroupMap).Keys && plan.room ==> (error == None <==> plan.all <= plan.could)
      ensures error == None ==> CkbUntouched() && old(InCkb()) <= InCkb()
    {
      hide Separate, Exact, Refs, Resolve, OutputsOf, Expected, Total, OutputCells, StreamAgrees, StreamMatches,
           StreamPure, Live, GroupsIndexed, Going, FundingCellsMatch, GroupsExact, Grows, InCkb, DueCkb, NothingTwice;
      var todo := required.assetAmounts.Keys;
      assert todo - {ZERO_HASH} == plan.all;
      GrowsSelf(changeLock, Body());
      GoingAt(plan.all, plan, ZERO_HASH);
      while todo != {}
        invariant todo <= {ZERO_HASH} + plan.all && Going(todo - {ZERO_HASH}, plan)
        invariant Booked(required, provided) && Extends() && scriptGroupMap == old(scriptGroupMap)
        invariant forall u :: u in knownUDTs ==> required.AssetAmount(u) == plan.wanted[u]
        invariant old(FundingCellsMatch() && GroupsExact()) && plan.all <= scriptGroupMap.Keys ==>
                  FundingCellsMatch() && GroupsExact()
        invariant plan.all <= scriptGroupMap.Keys && plan.room ==> plan.all - todo <= plan.could
        invariant CkbUntouched() && old(InCkb()) <= InCkb()
        decreases todo
      {
        var h :| h in todo;
        ghost var before := todo - {ZERO_HASH};
        todo := todo - {h};
        assert todo - {ZERO_HASH} == before - {h};
        if h == ZERO_HASH {
          assert before - {h} == before;
          continue;
        }
        ghost var body := Body();
        error := VisitNext(h, before, plan, required, provided);
        if error.Some? {
          return;
        }
        GrowsOn(changeLock, old(Body()), body, Body());
      }
      assert todo - {ZERO_HASH} == {};
      error := None;
    }

    lemma {:induction false} VisitedAre()
      requires AllLive() && |outputs| == |outputsData|
      ensures Visited() == Present(knownUDTs, OutCells()) - {ZERO_HASH}
      ensures GroupsExact() ==> Visited() <= scriptGroupMap.Keys
      ensures UdtRoom() ==> TypePure()
    {
      hide Present, Exact;
      if GroupsExact() {
        forall u | u in Visited() ensures u in scriptGroupMap {
          PresentGrouped(scriptGroups, scriptGroupMap, Refs(OutputsOf(InCells())), knownUDTs, outputs, outputsData, u);
        }
      }
    }

    static lemma {:induction false} LooksBalancedInCkb(known: set<Script>, ins: seq<Cell>, outs: seq<Cell>, fee: uint64)
      requires LooksBalanced(known, ins, outs, fee)
      ensures Expected(known, ZERO_HASH, ins, 0) == Expected(known, ZERO_HASH, outs, fee)
    {
      assert ZERO_HASH in Present(known, outs) + {ZERO_HASH};
      assert Present(known, ins) != {};
      assert ins != [];
    }

    /** The first half of balanceTransaction: what is required, what is provided, and whether they look equal. */
    method TakeStock() returns (error: Option<BuildError>, required: AssetInformation, provided: AssetInformation,
                                equal: bool)
      requires Valid() && changeLock in scriptGroupMap
      ensures fresh(required) && fresh(provided) && required != provided
      ensures error == None <==> AllLive()
      ensures error == None ==>
                && Booked(required, provided)
                && required.assetAmounts.Keys == {ZERO_HASH} + Present(knownUDTs, OutCells())
                && (forall u :: u in knownUDTs ==> required.AssetAmount(u) == Out64(u))
                && (equal <==> LooksBalanced(knownUDTs, InCells(), OutCells(), feeShannon))
    {
      hide Total, OutputCells, Live, Resolve, Present, Wrap;
      provided := new AssetInformation(knownUDTs);
      required := new AssetInformation(knownUDTs);
      equal := false;
      required.AddAssetAmount(ZERO_HASH, feeShannon);
      AccumulateOutputs(required);
      error := AccumulateInputs(provided);
      if error.Some? {
        return;
      }
      equal := provided.EqualAssets(required);
      assert |provided.assetAmounts| == |provided.assetAmounts.Keys|
             && |required.assetAmounts| == |required.assetAmounts.Keys|;
      assert required.assetAmounts.Keys == Present(knownUDTs, OutCells()) + {ZERO_HASH};
      assert forall h :: h in provided.assetAmounts ==>
          provided.assetAmounts[h] == provided.AssetAmount(h) == Expected(knownUDTs, h, InCells(), 0);
    }

    /** There are CKBytes for everything due, the rent of all change cells included, and no sum of CKBytes can wrap
        around, whatever the UDT iterators bring in. */
    ghost predicate Payable()
      requires AllLive() && |outputs| == |outputsData|
      reads `inputs, `outputs, `outputsData, `iterators
    {
      && NoNilCkbCell() && InCkb() + Reserve() >= DueCkb() + UdtRents() + CkbChangeCellCapacity()
      && DueCkb() + UdtRents() + CkbChangeCellCapacity() < TWO_64 && InCkb() + UdtCkb() + Reserve() < TWO_64
    }

    lemma {:induction false} StaysPayable(inCkb: nat, dueCkb: nat, udtCkb: nat, rents: nat)
      requires AllLive() && |outputs| == |outputsData| && NoNilCkbCell()
      requires inCkb + Reserve() >= dueCkb + rents + CkbChangeCellCapacity()
      requires dueCkb + rents + CkbChangeCellCapacity() < TWO_64 && inCkb + udtCkb + Reserve() < TWO_64
      requires inCkb <= InCkb() <= inCkb + udtCkb && DueCkb() <= dueCkb + rents
      ensures Roomy() && Affordable()
    {
      hide InCkb, DueCkb, Reserve;
    }

    /** The loop, from start to end: it succeeds exactly if every UDT can be funded, and leaves each UDT apart by its
        gap and enough CKBytes to go on with. */
    method FundUDTs(required: AssetInformation, provided: AssetInformation) returns (error: Option<BuildError>)
      requires required != provided && Booked(required, provided) && Unbalanced()
      requires required.assetAmounts.Keys == {ZERO_HASH} + Present(knownUDTs, OutCells())
      requires forall u :: u in knownUDTs ==> required.AssetAmount(u) == Out64(u)
      modifies this, required, provided
      ensures error == None ==> Booked(required, provided) && Extends() && ckbChangeCellIndex == -1
      ensures error == None && old(TypePure()) ==> TypePure() && forall u :: u in knownUDTs ==>
                if u in old(Present(knownUDTs, OutCells()))
                then Out64(u) == Add64(In64(u), Gap(old(In64(u)), old(Out64(u))))
                else Out64(u) == old(Out64(u)) && In64(u) == old(In64(u))
      ensures error == None && old(FundingCellsMatch() && GroupsExact()) ==> FundingCellsMatch() && GroupsExact()
      ensures old(GroupsExact() && UdtRoom()) ==> (error == None <==> old(AllFundable()))
      ensures error == None && old(Payable()) ==> Roomy() && Affordable()
    {
      hide Separate, Exact, Refs, Resolve, OutputsOf, Expected, Total, OutputCells, StreamAgrees, StreamMatches,
           StreamPure, Live, GroupsIndexed, RequiredCapacity, ChangeData, Gap, Add64, Grows, Present, FundingCellsMatch,
           Going, GroupsExact, TypePure, UdtRoom, AllFundable, UdtCkb, StreamTotal, UdtRents, InCkb, DueCkb, Visited,
           CkbStocks, Rents, Roomy, Affordable;
      PlanStarts();
      ghost var plan := PlanNow();
      VisitedAre();
      error := BalanceUDTs(required, provided, plan);
      if error.Some? {
        return;
      }
      GoingMeans(plan);
      if old(Payable()) {
        StaysPayable(old(InCkb()), old(DueCkb()), old(UdtCkb()), old(UdtRents()));
      }
    }

    /** The second half of balanceTransaction, for a transaction that does not look balanced yet. */
    method BalanceFromStock(required: AssetInformation, provided: AssetInformation) returns (error: Option<BuildError>)
      requires required != provided && Booked(required, provided) && Unbalanced()
      requires required.assetAmounts.Keys == {ZERO_HASH} + Present(knownUDTs, OutCells())
      requires forall u :: u in knownUDTs ==> required.AssetAmount(u) == Out64(u)
      modifies this, required, provided
      ensures error == None ==> Valid() && AllLive() && Extends() && In64(ZERO_HASH) == Due64()
      ensures error == None ==>
                ckbChangeCellIndex == |outputs| - 1 && |outputs| > |old(outputs)|
                  && outputs[ckbChangeCellIndex].typ == None
      ensures error == None && old(TypePure()) ==> forall u :: u in knownUDTs ==>
                if u in old(Present(knownUDTs, OutCells()))
                then Out64(u) == Add64(In64(u), Gap(old(In64(u)), old(Out64(u))))
                else Out64(u) == old(Out64(u)) && In64(u) == old(In64(u))
      ensures error == None && old(FundingCellsMatch() && GroupsExact()) ==> GroupsExact()
      // funds that are enough are found; without them for some UDT it fails
      ensures old(GroupsExact() && UdtRoom()) && error == None ==> old(AllFundable())
      ensures old(GroupsExact() && UdtRoom() && AllFundable() && Payable()) ==>
                error == None && outputs[ckbChangeCellIndex].capacity >= CkbChangeCellCapacity()
    {
      hide Separate, Exact, Refs, Resolve, OutputsOf, Expected, Total, OutputCells, StreamAgrees, StreamMatches,
           StreamPure, Live, GroupsIndexed, RequiredCapacity, ChangeData, Gap, Add64, Grows, Present, FundingCellsMatch,
           GroupsExact, TypePure, UdtRoom, AllFundable, Payable, StreamTotal, InCkb, DueCkb, Roomy, Affordable;
      error := FundUDTs(required, provided);
      if error.Some? {
        return;
      }
      ghost var body := Body();
      ghost var taken;
      error, taken := CompleteCKBCapacity(required, provided);
      if error == None {
        GrowsOn(changeLock, old(Body()), body, Body());
        GrowsLength(changeLock, old(Body()), body);
      }
    }

    lemma {:induction false} GoingMeans(plan: Plan)
      requires Going({}, plan)
      ensures AllLive() && ChangeTablesIndexed() && ckbChangeCellIndex == -1 && plan.For(knownUDTs)
      ensures InCkb() <= plan.inCkb && DueCkb() <= plan.dueCkb && (plan.pure ==> TypePure())
      ensures plan.pure ==> forall u :: u in knownUDTs ==>
                if u in plan.all then Out64(u) == Add64(In64(u), Gap(plan.given[u], plan.wanted[u]))
                else Out64(u) == plan.wanted[u] && In64(u) == plan.given[u]
    {
      hide SumOf, InCkb, DueCkb, In64, Out64, TypePure, Gap, Add64;
    }

    method BalanceTransaction() returns (error: Option<BuildError>)
      requires Valid() && Unbalanced() && changeLock in scriptGroupMap
      modifies this
      ensures error == None ==> Valid() && AllLive() && Extends()
      // a transaction that looks balanced stays as it is; otherwise the CKB change cell comes last
      ensures error == None ==>
                if LooksBalanced(knownUDTs, old(InCells()), old(OutCells()), feeShannon)
                then ckbChangeCellIndex == -1 && inputs == old(inputs) && outputs == old(outputs)
                else
                  && ckbChangeCellIndex == |outputs| - 1 && |outputs| > |old(outputs)|
                  && outputs[ckbChangeCellIndex].typ == None
      // CKBytes: inputs are outputs plus fee
      ensures error == None ==> old(AllLive()) && In64(ZERO_HASH) == Due64()
      // UDTs: exactly how far outputs and inputs are apart
      ensures error == None && old(TypePure()) ==>
                forall u :: u in knownUDTs ==>
                  Out64(u) == Add64(In64(u), Excess(knownUDTs, old(InCells()), old(OutCells()), feeShannon, u))
      ensures error == None && old(FundingCellsMatch() && GroupsExact()) ==> GroupsExact()
      // when it succeeds: if the transaction looks balanced, or every UDT can be funded and CKBytes are enough; and
      // never, in the second case, if some UDT cannot be funded
      ensures old(AllLive()) && LooksBalanced(knownUDTs, old(InCells()), old(OutCells()), feeShannon) ==> error == None
      ensures error == None && old(GroupsExact() && UdtRoom()) ==>
                LooksBalanced(knownUDTs, old(InCells()), old(OutCells()), feeShannon) || old(AllFundable())
      ensures old(AllLive() && GroupsExact() && UdtRoom() && AllFundable() && Payable()) ==>
                && error == None
                && (ckbChangeCellIndex != -1 ==> outputs[ckbChangeCellIndex].capacity >= CkbChangeCellCapacity())
    {
      hide Separate, Exact, Refs, Resolve, OutputsOf, Expected, Total, OutputCells, StreamAgrees, StreamMatches,
           StreamPure, Live, GroupsIndexed, RequiredCapacity, ChangeData, LooksBalanced, Gap, Grows, FundingCellsMatch,
           GroupsExact, UdtRoom, AllFundable, Payable, Visited;
      var required, provided, equal;
      error, required, provided, equal := TakeStock();
      if error.Some? {
        return;
      }
      if equal {
        LooksBalancedInCkb(knownUDTs, InCells(), OutCells(), feeShannon);
        GrowsSelf(changeLock, Body());
        return None;
      }
      forall u | u in knownUDTs && u !in Present(knownUDTs, OutCells()) ensures Out64(u) == 0 {
        AbsentTotal(knownUDTs, u, OutCells());
        NothingExpected(knownUDTs, u, OutCells());
      }
      error := BalanceFromStock(required, provided);
    }

    static lemma {:induction false} NothingExpected(known: set<Script>, u: Script, cells: seq<Cell>)
      requires Total(known, u, cells) == 0
      ensures Expected(known, u, cells, 0) == 0
    {}

    // ---------- when UDTs balance ----------

    /** Exactly when UDT u balances after balanceTransaction: when its preset inputs are what the outputs need, or when
        the loop visits u and they are none or more than that. The loop is not reached if the transaction looks
        balanced, and does not visit a UDT that is not among the outputs. */
    static lemma {:induction false} NoExcess(known: set<Script>, ins: seq<Cell>, outs: seq<Cell>, fee: uint64,
                                             u: Script)
      ensures var provided, required := Expected(known, u, ins, 0), Expected(known, u, outs, 0);
              Excess(known, ins, outs, fee, u) == 0 <==>
              || provided == required
              || (!LooksBalanced(known, ins, outs, fee) && u in Present(known, outs) &&
                  (provided == 0 || provided >= required))
    {}

    /** What the early exit misses: exactly a UDT that no input carries and the outputs need. */
    static lemma {:induction false} EarlyExitMisses(known: set<Script>, ins: seq<Cell>, outs: seq<Cell>, fee: uint64,
                                                    u: Script)
      requires LooksBalanced(known, ins, outs, fee) && u in known
      ensures Excess(known, ins, outs, fee, u) != 0 <==>
              u !in Present(known, ins) && Expected(known, u, outs, 0) != 0
    {
      if u in Present(known, ins) {
        assert Expected(known, u, outs, fee) == Expected(known, u, ins, 0);
      } else {
        AbsentTotal(known, u, ins);
      }
    }

    /** What the loop never visits: a preset UDT that is not among the outputs is spent for nothing, whatever its
        amount. */
    static lemma {:induction false} UnrequestedUDTIsDropped(known: set<Script>, ins: seq<Cell>, outs: seq<Cell>,
                                                            fee: uint64, u: Script)
      requires !LooksBalanced(known, ins, outs, fee) && u in known && u !in Present(known, outs)
      ensures Excess(known, ins, outs, fee, u) == Sub64(0, Expected(known, u, ins, 0))
      ensures Excess(known, ins, outs, fee, u) == 0 <==> Expected(known, u, ins, 0) == 0
    {
      AbsentTotal(known, u, outs);
    }

    /** That happens: one cell of u goes in, a plain cell comes out. */
    static lemma {:induction false} DroppedUDT(u: Script, lock: Script, fee: uint64, capacity: uint64, rent: uint64,
                                               something: Bytes)
      requires UdtAmount(something) > 0
      ensures var ins := [Cell(CellOutput(capacity, lock, Some(u)), something)];
              var outs := [Cell(CellOutput(rent, lock, None), [])];
              && !LooksBalanced({u}, ins, outs, fee)
              && Expected({u}, u, ins, 0) >= Expected({u}, u, outs, 0)
              && Excess({u}, ins, outs, fee, u) == Sub64(0, UdtAmount(something)) != 0
    {
      hide UdtAmount;
      var i, o := Cell(CellOutput(capacity, lock, Some(u)), something), Cell(CellOutput(rent, lock, None), []);
      SingleCell({u}, i);
      SingleCell({u}, o);
      assert Present({u}, [i]) == {ZERO_HASH, u} && Present({u}, [o]) + {ZERO_HASH} == {ZERO_HASH};
      assert Holding({u}, u, i) == UdtAmount(something);
      WrapSmall(UdtAmount(something));
      UnrequestedUDTIsDropped({u}, [i], [o], fee, u);
    }

    /** If no UDT is among the preset inputs but not among the outputs, neither of the two happens: a UDT balances just
        when its preset inputs are none or already enough. */
    static lemma {:induction false} NoExcessIfRequested(known: set<Script>, ins: seq<Cell>, outs: seq<Cell>,
                                                        fee: uint64, u: Script)
      requires Present(known, ins) <= Present(known, outs) + {ZERO_HASH}
      ensures Excess(known, ins, outs, fee, u) == 0 <==>
              Expected(known, u, ins, 0) == 0 || Expected(known, u, ins, 0) >= Expected(known, u, outs, 0)
    {
      var A, B := Present(known, ins), Present(known, outs) + {ZERO_HASH};
      if LooksBalanced(known, ins, outs, fee) {
        SameSizeSubset(A, B);
        if u in A {
          assert Expected(known, u, outs, fee) == Expected(known, u, ins, 0);
        } else {
          AbsentTotal(known, u, outs);
          AbsentTotal(known, u, ins);
        }
      } else if u !in Present(known, outs) {
        AbsentTotal(known, u, outs);
        AbsentTotal(known, u, ins);
      }
    }

    static lemma {:induction false} SameSizeSubset(a: set<Hash>, b: set<Hash>)
      requires a <= b && |a| == |b|
      ensures a == b
    {
      assert |b - a| == |b| - |a|;
    }

    /** That happens: the early exit goes by the number of assets, and an unrelated UDT cell of amount 0 among the
        preset inputs makes a transaction look balanced although nothing provides what output u needs. */
    static lemma {:induction false} EarlyExitMissesUDT(
      known: set<Script>, u: Script, v: Script, fee: uint64, rent: uint64, nothing: Bytes, something: Bytes)
      requires known == {u, v} && u != v && rent + fee < TWO_64 && UdtAmount(nothing) == 0 < UdtAmount(something)
      ensures var ins := [Cell(CellOutput(rent + fee, v, Some(v)), nothing)];
              var outs := [Cell(CellOutput(rent, v, Some(u)), something)];
              LooksBalanced(known, ins, outs, fee) && Excess(known, ins, outs, fee, u) == UdtAmount(something)
    {
      hide UdtAmount;
      var i, o := Cell(CellOutput(rent + fee, v, Some(v)), nothing), Cell(CellOutput(rent, v, Some(u)), something);
      SingleCell(known, i);
      SingleCell(known, o);
      assert Present(known, [i]) == {ZERO_HASH, v} && Present(known, [o]) + {ZERO_HASH} == {ZERO_HASH, u};
      assert Holding(known, u, o) == UdtAmount(something) && Holding(known, v, i) == 0;
      WrapSmall(rent + fee);
      WrapSmall(UdtAmount(something));
      WrapSmall(0);
    }

    static lemma {:induction false} SingleCell(known: set<Script>, c: Cell)
      ensures forall h :: Total(known, h, [c]) == Holding(known, h, c)
      ensures Present(known, [c]) == {ZERO_HASH} + if IsUdt(known, c.output) then {c.output.typ.value} else {}
    {
      assert [] + [c] == [c];
      forall h ensures Total(known, h, [c]) == Holding(known, h, c) {
        TotalAppend(known, h, [], c);
      }
      PresentAppend(known, [], c);
    }

    /** The double subtraction: a preset input that covers part of the request is counted twice. */
    static lemma {:induction false} PartlyFundedUDTIsOverpaid(known: set<Script>, ins: seq<Cell>, outs: seq<Cell>,
                                                              fee: uint64, u: Script)
      requires 0 < Expected(known, u, ins, 0) < Expected(known, u, outs, 0)
      ensures Excess(known, ins, outs, fee, u) == Expected(known, u, ins, 0)
    {
      ExpectedIsPresent(known, u, ins);
      ExpectedIsPresent(known, u, outs);
    }

    static lemma {:induction false} ExpectedIsPresent(known: set<Script>, u: Script, cells: seq<Cell>)
      ensures Expected(known, u, cells, 0) > 0 ==> u in Present(known, cells)
    {
      if u !in Present(known, cells) {
        AbsentTotal(known, u, cells);
      }
    }

    /** Equal modulo 2^64 and below 2^64 means equal. */
    static lemma {:induction false} ExactTotals(known: set<Script>, h: Hash, ins: seq<Cell>, outs: seq<Cell>,
                                                extra: nat)
      requires Expected(known, h, ins, 0) == Expected(known, h, outs, extra)
      requires Total(known, h, ins) < TWO_64 && Total(known, h, outs) + (if h == ZERO_HASH then extra else 0) < TWO_64
      ensures Total(known, h, ins) == Total(known, h, outs) + if h == ZERO_HASH then extra else 0
    {}

    // ---------- script group initialisation ----------

    /** The lock scripts of inputs and outputs and the default one, and their type scripts. */
    ghost function LockScripts(): set<Script>
      reads `inputs, `outputs
    {
      (set i | 0 <= i < |outputs| :: outputs[i].lock) +
      (set i | 0 <= i < |inputs| && inputs[i] in live :: live[inputs[i]].output.lock) + {changeLock}
    }

    ghost function TypeScripts(): set<Script>
      reads `inputs, `outputs
    {
      (set i | 0 <= i < |outputs| && outputs[i].typ.Some? :: outputs[i].typ.value) +
      (set i | 0 <= i < |inputs| && inputs[i] in live && live[inputs[i]].output.typ.Some? ::
         live[inputs[i]].output.typ.value)
    }

    /** Lock groups are made for lock scripts and type groups for type scripts. */
    ghost predicate KindsMatch()
      reads `inputs, `outputs, `scriptGroups
    {
      forall g :: 0 <= g < |scriptGroups| ==> Serves(scriptGroups[g].groupType, scriptGroups[g].script)
    }

    ghost predicate Serves(kind: ScriptType, script: Script)
      reads `inputs, `outputs
    {
      script in if kind == Lock then LockScripts() else TypeScripts()
    }

    method InitializeScript(script: Option<Script>, kind: ScriptType, idx: nat, dir: Direction, ghost ins: seq<Ref>,
                            ghost outs: seq<Ref>)
      requires Exact(scriptGroups, scriptGroupMap, ins, outs)
      modifies this`scriptGroups, this`scriptGroupMap
      ensures script == None ==> scriptGroups == old(scriptGroups) && scriptGroupMap == old(scriptGroupMap)
      ensures script.Some? ==> script.value in scriptGroupMap && match dir
                case InputDir => Exact(scriptGroups, scriptGroupMap, ins + [Ref(script.value, idx)], outs)
                case OutputDir => Exact(scriptGroups, scriptGroupMap, ins, outs + [Ref(script.value, idx)])
                case NoneDir => Exact(scriptGroups, scriptGroupMap, ins, outs)
      ensures old(KindsMatch()) && (script.Some? ==> Serves(kind, script.value)) ==> KindsMatch()
    {
      hide Exact, Serves, Pick;
      if script == None {
        return;
      }
      var h := script.value;
      if h !in scriptGroupMap {
        ExactNewGroup(scriptGroups, scriptGroupMap, ins, outs, h, kind);
        scriptGroups := scriptGroups + [ScriptGroup(h, kind, [], [])];
        scriptGroupMap := scriptGroupMap[h := |scriptGroups| - 1];
      }
      var g := scriptGroupMap[h];
      assert g < |scriptGroups| by { ExactInRange(scriptGroups, scriptGroupMap, ins, outs, h); }
      match dir {
        case InputDir =>
          ExactAppendInput(scriptGroups, scriptGroupMap, ins, outs, Ref(h, idx));
          scriptGroups := AppendInput(scriptGroups, g, idx);
        case OutputDir =>
          ExactAppendOutput(scriptGroups, scriptGroupMap, ins, outs, Ref(h, idx));
          scriptGroups := AppendOutput(scriptGroups, g, idx);
        case NoneDir =>
      }
    }

    static lemma {:induction false} ExactInRange(groups: seq<ScriptGroup>, index: map<Script, nat>, ins: seq<Ref>,
                                                 outs: seq<Ref>, h: Script)
      requires Exact(groups, index, ins, outs) && h in index
      ensures index[h] < |groups|
    {}

    /** Both scripts of one input or output cell. */
    method InitializeCell(c: CellOutput, idx: nat, dir: Direction, ghost ins: seq<Ref>, ghost outs: seq<Ref>)
      requires Exact(scriptGroups, scriptGroupMap, ins, outs) && dir != NoneDir
      modifies this`scriptGroups, this`scriptGroupMap
      ensures dir == InputDir ==> Exact(scriptGroups, scriptGroupMap, ins + RefsOf(c, idx), outs)
      ensures dir == OutputDir ==> Exact(scriptGroups, scriptGroupMap, ins, outs + RefsOf(c, idx))
      ensures old(KindsMatch()) && c.lock in LockScripts() && (c.typ.Some? ==> c.typ.value in TypeScripts()) ==>
                KindsMatch()
    {
      hide Exact;
      var lock := Ref(c.lock, idx);
      InitializeScript(Some(c.lock), Lock, idx, dir, ins, outs);
      if dir == InputDir {
        InitializeScript(c.typ, Type, idx, dir, ins + [lock], outs);
      } else {
        InitializeScript(c.typ, Type, idx, dir, ins, outs + [lock]);
      }
      if c.typ.Some? {
        assert ins + [lock] + [Ref(c.typ.value, idx)] == ins + RefsOf(c, idx);
        assert outs + [lock] + [Ref(c.typ.value, idx)] == outs + RefsOf(c, idx);
      } else {
        assert ins + [lock] == ins + RefsOf(c, idx) && outs + [lock] == outs + RefsOf(c, idx);
      }
    }

    method InitializeOutputs()
      requires scriptGroups == [] && scriptGroupMap == map[]
      modifies this`scriptGroups, this`scriptGroupMap
      ensures Exact(scriptGroups, scriptGroupMap, [], Refs(outputs)) && KindsMatch()
    {
      assert outputs[..0] == [] && Refs([]) == [] && forall h :: Pick(h, []) == [];
      assert Exact(scriptGroups, scriptGroupMap, [], Refs(outputs[..0]));
      hide Separate, Exact, Refs, Pick;
      for i := 0 to |outputs|
        invariant Exact(scriptGroups, scriptGroupMap, [], Refs(outputs[..i])) && KindsMatch()
      {
        assert outputs[..i + 1] == outputs[..i] + [outputs[i]];
        RefsAppend(outputs[..i], outputs[i]);
        InitializeCell(outputs[i], i, OutputDir, [], Refs(outputs[..i]));
      }
      assert outputs[..|outputs|] == outputs;
    }

    static lemma {:induction false} NoInputs(live: map<OutPoint, Cell>)
      ensures Live(live, []) && Resolve(live, []) == [] && OutputsOf([]) == [] && Refs([]) == []
    {}

    method InitializeInputs() returns (error: Option<BuildError>)
      requires Exact(scriptGroups, scriptGroupMap, [], Refs(outputs))
      modifies this`scriptGroups, this`scriptGroupMap
      ensures error == if AllLive() then None else Some(NotLive)
      ensures error == None ==> GroupsExact() && (old(KindsMatch()) ==> KindsMatch())
    {
      hide Separate, Exact, Refs, OutputsOf, Resolve;
      NoInputs(live);
      ghost var cells: seq<Cell> := [];
      assert inputs[..0] == [];
      for i := 0 to |inputs|
        invariant Live(live, inputs[..i]) && cells == Resolve(live, inputs[..i])
        invariant Exact(scriptGroups, scriptGroupMap, Refs(OutputsOf(cells)), Refs(outputs))
        invariant old(KindsMatch()) ==> KindsMatch()
      {
        if inputs[i] !in live {
          return Some(NotLive);
        }
        var cell := live[inputs[i]];
        ResolveAppend(live, inputs[..i], inputs[i]);
        assert inputs[..i + 1] == inputs[..i] + [inputs[i]];
        OutputsAppend(cells, cell);
        RefsAppend(OutputsOf(cells), cell.output);
        InitializeCell(cell.output, i, InputDir, Refs(OutputsOf(cells)), Refs(outputs));
        cells := cells + [cell];
      }
      assert inputs[..|inputs|] == inputs;
      error := None;
    }

    method InitializeScriptGroups() returns (error: Option<BuildError>)
      requires scriptGroups == [] && scriptGroupMap == map[]
      modifies this`scriptGroups, this`scriptGroupMap
      ensures error == if AllLive() then None else Some(NotLive)
      ensures error == None ==> GroupsExact() && changeLock in scriptGroupMap
      // and the kind of each group is that of a use of its script
      ensures error == None ==> KindsMatch()
    {
      InitializeOutputs();
      error := InitializeInputs();
      if error == None {
        hide Exact;
        InitializeScript(Some(changeLock), Lock, 0, NoneDir, Refs(OutputsOf(InCells())), Refs(outputs));
      }
    }

    // ---------- Build ----------

    /** SimpleTransactionBuilder: cells the user adds before building. */
    method AddInput(op: OutPoint) returns (idx: nat)
      requires Valid()
      modifies this`inputs, this`witnesses
      ensures Valid() && idx == |old(inputs)|
      ensures inputs == old(inputs) + [op] && witnesses == old(witnesses) + [[]]
    {
      idx := |inputs|;
      inputs, witnesses := inputs + [op], witnesses + [[]];
    }

    method AddOutput(output: CellOutput, data: Bytes)
      requires Valid()
      modifies this`outputs, this`outputsData
      ensures Valid()
      ensures outputs == old(outputs) + [output] && outputsData == old(outputsData) + [data]
    {
      outputs, outputsData := outputs + [output], outputsData + [data];
    }

    function GroupForScript(h: Script): Option<nat>
      reads `scriptGroupMap
    {
      FindInGroup(h)
    }

    /** Every output's type script needs a group; lock scripts of outputs are not evaluated. */
    method ProcessOutputs() returns (error: Option<BuildError>)
      ensures error == None <==>
              forall i :: 0 <= i < |outputs| && outputs[i].typ.Some? ==> outputs[i].typ.value in scriptGroupMap
      ensures error.Some? ==> error == Some(NoScriptGroup)
    {
      for i := 0 to |outputs|
        invariant forall j :: 0 <= j < i && outputs[j].typ.Some? ==> outputs[j].typ.value in scriptGroupMap
      {
        if outputs[i].typ.Some? && GroupForScript(outputs[i].typ.value) == None {
          return Some(NoScriptGroup);
        }
      }
      error := None;
    }

    predicate InputGrouped(c: CellOutput)
      reads `scriptGroupMap
    {
      c.lock in scriptGroupMap && (c.typ.Some? ==> c.typ.value in scriptGroupMap)
    }

    method ProcessInputs() returns (error: Option<BuildError>)
      requires AllLive()
      ensures error == None <==> forall i :: 0 <= i < |inputs| ==> InputGrouped(live[inputs[i]].output)
      ensures error.Some? ==> error == Some(NoScriptGroup)
    {
      for i := 0 to |inputs|
        invariant forall j :: 0 <= j < i ==> InputGrouped(live[inputs[j]].output)
      {
        var c := live[inputs[i]].output;
        if GroupForScript(c.lock) == None || (c.typ.Some? && GroupForScript(c.typ.value) == None) {
          return Some(NoScriptGroup);
        }
      }
      error := None;
    }

    method HandleCKBFee() returns (error: Option<BuildError>)
      requires ChangeTablesIndexed()
      ensures error == None <==> ckbChangeCellIndex == -1 || outputs[ckbChangeCellIndex].capacity > feeShannon
      ensures error.Some? ==> error == Some(ChangeBelowFee)
    {
      if ckbChangeCellIndex == -1 {
        return None;
      }
      if outputs[ckbChangeCellIndex].capacity <= feeShannon {
        return Some(ChangeBelowFee);
      }
      error := None;
    }

    /** The checks of a balanced transaction: groups for all scripts, and a change cell above the fee. */
    method Process() returns (error: Option<BuildError>)
      requires AllLive() && ChangeTablesIndexed()
      ensures error == None ==> ckbChangeCellIndex == -1 || outputs[ckbChangeCellIndex].capacity > feeShannon
      ensures error == None <==>
              && (forall i :: 0 <= i < |outputs| && outputs[i].typ.Some? ==> outputs[i].typ.value in scriptGroupMap)
              && (forall i :: 0 <= i < |inputs| ==> InputGrouped(live[inputs[i]].output))
              && (ckbChangeCellIndex == -1 || outputs[ckbChangeCellIndex].capacity > feeShannon)
      ensures GroupsExact() ==>
                (error == None <==> ckbChangeCellIndex == -1 || outputs[ckbChangeCellIndex].capacity > feeShannon)
    {
      hide GroupsExact;
      if GroupsExact() {
        AllGrouped();
      }
      error := ProcessOutputs();
      if error.Some? {
        return;
      }
      error := ProcessInputs();
      if error.Some? {
        return;
      }
      error := HandleCKBFee();
    }

    /** The script handlers called by ProcessOutputs and ProcessInputs add witnesses and cell deps only. */
    method Build() returns (r: Result<seq<ScriptGroup>, BuildError>)
      requires Valid() && Unbalanced() && scriptGroups == [] && scriptGroupMap == map[]
      modifies this
      ensures r.Ok? ==> Valid() && old(AllLive()) && AllLive() && Extends()
      ensures r.Ok? ==> In64(ZERO_HASH) == Due64()
      ensures r.Ok? && InCkb() < TWO_64 && DueCkb() < TWO_64 ==> InCkb() == DueCkb()
      ensures r.Ok? && old(TypePure()) ==>
                forall u :: u in knownUDTs ==>
                  Out64(u) == Add64(In64(u), Excess(knownUDTs, old(InCells()), old(OutCells()), feeShannon, u))
      ensures r.Ok? ==> ckbChangeCellIndex == -1 || outputs[ckbChangeCellIndex].capacity > feeShannon
      ensures r.Ok? && old(FundingCellsMatch()) ==> GroupsExact() && r.value == Kept(scriptGroups)
      ensures r.Ok? && old(NothingTwice()) ==> forall i, j :: 0 <= i < j < |inputs| ==> inputs[i] != inputs[j]
      // when it succeeds: with live inputs, a fee below the rent of a change cell, iterators that yield what they are
      // registered for, and either totals that look balanced or funds that are enough
      ensures old(AllLive() && FundingCellsMatch()) && feeShannon < CkbChangeCellCapacity() ==>
                (LooksBalanced(knownUDTs, old(InCells()), old(OutCells()), feeShannon) ==> r.Ok?) &&
                (old(UdtRoom() && AllFundable() && Payable()) ==> r.Ok?)
      // and when not: with an input that is not live, or a UDT that cannot be funded
      ensures r.Ok? && old(UdtRoom()) ==>
                LooksBalanced(knownUDTs, old(InCells()), old(OutCells()), feeShannon) || old(AllFundable())
    {
      hide Separate, Exact, Refs, Resolve, OutputsOf, Expected, Total, OutputCells, StreamAgrees, StreamMatches,
           StreamPure, Live, GroupsIndexed, RequiredCapacity, ChangeData, LooksBalanced, Gap, Grows, FundingCellsMatch,
           Excess, TypePure, Present, NothingTwice, GroupsExact, UdtRoom, AllFundable, Payable, InCkb, DueCkb, Visited,
           UdtRents, UdtCkb;
      var error := InitializeScriptGroups();
      if error.Some? {
        return Err(error.value);
      }
      ExactIndexed();
      error := BalanceTransaction();
      if error.Some? {
        return Err(error.value);
      }
      error := Process();
      if error.Some? {
        return Err(error.value);
      }
      Narrow();
      if old(NothingTwice()) {
        AllDifferent();
      }
      var valid := CopyValidScriptGroups(scriptGroups);
      r := Ok(valid);
    }

    lemma {:induction false} ExactIndexed()
      requires GroupsExact()
      ensures GroupsIndexed()
    {}

    /** Exact groups cover every script that is looked up. */
    lemma {:induction false} AllGrouped()
      requires GroupsExact()
      ensures forall i :: 0 <= i < |outputs| && outputs[i].typ.Some? ==> outputs[i].typ.value in scriptGroupMap
      ensures forall i :: 0 <= i < |inputs| ==> InputGrouped(live[inputs[i]].output)
    {
      hide Exact, Resolve, OutputsOf;
      forall i | 0 <= i < |outputs| && outputs[i].typ.Some? ensures outputs[i].typ.value in scriptGroupMap {
        Grouped(scriptGroups, scriptGroupMap, Refs(OutputsOf(InCells())), Refs(outputs), outputs, i,
                outputs[i].typ.value);
      }
      forall i | 0 <= i < |inputs| ensures InputGrouped(live[inputs[i]].output) {
        ResolvedAt(live, inputs, i);
        var cells := OutputsOf(InCells());
        Grouped(scriptGroups, scriptGroupMap, Refs(cells), Refs(outputs), cells, i, cells[i].lock);
        if cells[i].typ.Some? {
          Grouped(scriptGroups, scriptGroupMap, Refs(cells), Refs(outputs), cells, i, cells[i].typ.value);
        }
      }
    }

    static lemma {:induction false} Grouped(groups: seq<ScriptGroup>, index: map<Script, nat>, ins: seq<Ref>,
                                            outs: seq<Ref>, cells: seq<CellOutput>, i: nat, h: Script)
      requires Exact(groups, index, ins, outs) && (Refs(cells) == ins || Refs(cells) == outs)
      requires i < |cells| && RefersTo(cells[i], h)
      ensures h in index
    {
      hide Refs, Pick;
      PickMembers(h, cells);
      assert i in Pick(h, Refs(cells));
    }

    static lemma {:induction false} ResolvedAt(live: map<OutPoint, Cell>, ops: seq<OutPoint>, i: nat)
      requires Live(live, ops) && i < |ops|
      ensures |OutputsOf(Resolve(live, ops))| == |ops| && OutputsOf(Resolve(live, ops))[i] == live[ops[i]].output
    {
      if i < |ops| - 1 {
        ResolvedAt(live, ops[..|ops| - 1], i);
      }
    }
  }
}

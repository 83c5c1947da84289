/** client/ckbclient.go: closing a channel from draft to balanced transaction, and what it costs the one who submits
    it. */
module Submission {
  import opened Words
  import opened Wrappers
  import opened AssetTotals
  import opened Cells
  import opened ChannelStates
  import opened ScriptGroups
  import opened Settlement
  import opened ScriptHandlers
  import opened Statuses
  import opened TransactionBuilding
  import Disputes
  import Lifecycle
  import VcRent

  datatype SubmitError = Drafting(handler: HandlerError) | Balancing(builder: BuildError)

  lemma {:induction false} ResolveConcat(live: map<OutPoint, Cell>, a: seq<OutPoint>, b: seq<OutPoint>)
    requires Live(live, a + b)
    ensures Live(live, a) && Live(live, b)
    ensures Resolve(live, a + b) == Resolve(live, a) + Resolve(live, b)
  {
    var all := a + b;
    assert forall i :: 0 <= i < |a| ==> all[i] == a[i];
    assert forall i :: 0 <= i < |b| ==> all[|a| + i] == b[i];
    if b == [] {
      assert all == a;
    } else {
      var n := |b| - 1;
      assert all[..|all| - 1] == a + b[..n];
      ResolveConcat(live, a, b[..n]);
    }
  }

  /** Output cells of a longer transaction start with those of a shorter one. */
  lemma {:induction false} OutputsPrefix(outs: seq<CellOutput>, data: seq<Bytes>, outs': seq<CellOutput>,
                                         data': seq<Bytes>)
    requires |outs| == |data| && |outs'| == |data'| && outs <= outs' && data <= data'
    ensures OutputCells(outs', data')[..|outs|] == OutputCells(outs, data)
  {
    assert forall i :: 0 <= i < |outs| ==> outs'[i] == outs[i] && data'[i] == data[i];
  }

  /** What a balanced transaction takes from the submitter's cells, if its draft alone leaves `surplus` over. */
  lemma {:induction false} NetChange(known: set<Script>, drafted: seq<Cell>, funding: seq<Cell>, paid: seq<Cell>,
                                     change: seq<Cell>,
                                     fee: nat, surplus: int)
    requires Total(known, ZERO_HASH, drafted + funding) == Total(known, ZERO_HASH, paid + change) + fee
    requires Ckb(drafted) == Ckb(paid) + surplus
    ensures Ckb(change) + fee == Ckb(funding) + surplus
  {
    CkbOfAny(known, drafted + funding);
    CkbOfAny(known, paid + change);
    TotalConcat({}, ZERO_HASH, drafted, funding);
    TotalConcat({}, ZERO_HASH, paid, change);
  }

  /** What the submitter put in and got back: the inputs and outputs added when balancing. */
  ghost function FundingCells(b: PerunTransactionBuilder, d: Draft): seq<Cell>
    requires b.AllLive() && |b.inputs| >= |d.inputs|
    reads b`inputs
  {
    b.InCells()[|d.inputs|..]
  }

  ghost function ChangeCells(b: PerunTransactionBuilder, d: Draft): seq<Cell>
    requires |b.outputs| == |b.outputsData| && |b.outputs| >= |d.outputs|
    reads b`outputs, b`outputsData
  {
    b.OutCells()[|d.outputs|..]
  }

  /** The built transaction is the draft and, after it, cells of the change lock. */
  ghost predicate Completes(b: PerunTransactionBuilder, d: Draft)
    reads b
  {
    && b.AllLive() && |b.outputs| == |b.outputsData|
    && d.inputs <= b.inputs && |b.outputs| >= |d.outputs|
    && b.OutCells()[..|d.outputs|] == d.outputs
    && forall c :: c in ChangeCells(b, d) ==> c.output.lock == b.changeLock
  }

  /** Known UDTs are off by exactly the excess computed from the draft. */
  ghost predicate BalancesUDTs(b: PerunTransactionBuilder, d: Draft)
    requires Live(b.live, d.inputs)
    reads b
  {
    && b.AllLive() && |b.outputs| == |b.outputsData|
    && forall u :: u in b.knownUDTs ==>
         b.Out64(u) == Add64(b.In64(u),
                             PerunTransactionBuilder.Excess(b.knownUDTs, Resolve(b.live, d.inputs), d.outputs,
                                                            b.feeShannon, u))
  }

  /** Build on a builder that holds exactly a draft. */
  method Complete(b: PerunTransactionBuilder, ghost d: Draft) returns (r: Result<seq<ScriptGroup>, BuildError>)
    requires b.Valid() && b.Unbalanced() && b.scriptGroups == [] && b.scriptGroupMap == map[]
    requires |b.outputs| == |b.outputsData| && b.inputs == d.inputs && b.OutCells() == d.outputs
    modifies b
    ensures r.Ok? ==> b.Valid() && Completes(b, d)
    ensures r.Ok? && b.InCkb() < TWO_64 && b.DueCkb() < TWO_64 ==> b.InCkb() == b.DueCkb()
    ensures r.Ok? && old(b.TypePure()) ==> Live(b.live, d.inputs) && BalancesUDTs(b, d)
  {
    hide PerunTransactionBuilder.Valid, PerunTransactionBuilder.Excess, PerunTransactionBuilder.TypePure,
         PerunTransactionBuilder.FundingCellsMatch, PerunTransactionBuilder.GroupsExact, Kept, Resolve, Total,
         PerunTransactionBuilder.Unbalanced;
    r := b.Build();
    if r.Ok? {
      PerunScriptHandler.InStep(b);
      OutputsPrefix(old(b.outputs), old(b.outputsData), b.outputs, b.outputsData);
    }
  }

  /** Whatever the draft: if its inputs hold `surplus` more than its outputs need - less, if that is negative - the
      submitter's cells gain exactly the surplus minus the fee. */
  lemma {:induction false} NetIsSurplusMinusFee(b: PerunTransactionBuilder, d: Draft, surplus: int)
    requires Completes(b, d) && Live(b.live, d.inputs) && b.InCkb() == b.DueCkb()
    requires Ckb(Resolve(b.live, d.inputs)) == Ckb(d.outputs) + surplus
    ensures Ckb(ChangeCells(b, d)) + b.feeShannon == Ckb(FundingCells(b, d)) + surplus
  {
    hide Resolve, Total, OutputCells, Ckb, Live;
    var rest := b.inputs[|d.inputs|..];
    assert b.inputs == d.inputs + rest;
    ResolveConcat(b.live, d.inputs, rest);
    var drafted := Resolve(b.live, d.inputs);
    assert b.InCells() == drafted + FundingCells(b, d);
    assert b.OutCells() == d.outputs + ChangeCells(b, d);
    NetChange(b.knownUDTs, drafted, FundingCells(b, d), d.outputs, ChangeCells(b, d), b.feeShannon, surplus);
  }

  lemma {:induction false} ChannelAndFunds(live: map<OutPoint, Cell>, channel: OutPoint, assets: seq<OutPoint>)
    requires channel in live && Live(live, assets)
    ensures Live(live, [channel] + assets)
    ensures Ckb(Resolve(live, [channel] + assets)) == live[channel].output.capacity + Ckb(Resolve(live, assets))
  {
    var all := [channel] + assets;
    assert forall i :: 0 < i < |all| ==> all[i] == assets[i - 1];
    assert Live(live, all);
    ResolveConcat(live, [channel], assets);
    assert [channel][..0] == [];
    assert Resolve(live, [channel]) == [live[channel]];
    SingleCell(1, live[channel]);
    TotalConcat({}, ZERO_HASH, [live[channel]], Resolve(live, assets));
  }

  /** What a close of state s pays in CKBytes besides the channel cell's capacity. */
  function Owed(s: State): int
    requires WellFormed(s) && SudtsOf(s).Ok?
  {
    StateCkb(s) + 2 * RowsCapacity(SudtsOf(s).value)
  }

  /** Client.Close and Client.ForceClose. The parties get the settlement; everything else falls to the submitter, whose
      net gain is exactly the dust, and what the funds cells hold above what is owed, minus the fee. Of each SUDT of the
      channel whose funds cells hold at least what is owed, the amounts that the builder reads balance. */
  method SubmitClose(
    psh: PerunScriptHandler, b: PerunTransactionBuilder, channel: OutPoint, assets: seq<OutPoint>, locks: seq<Script>,
    s: State, channelCapacity: uint64, closing: ClosingWitness) returns (r: Result<seq<ScriptGroup>, SubmitError>)
    requires b.Valid() && b.Unbalanced() && b.scriptGroups == [] && b.scriptGroupMap == map[]
    requires b.inputs == [] && b.outputs == [] && b.outputsData == []
    requires WellFormed(s) && |locks| == 2 && channel in b.live && Live(b.live, assets)
    requires b.live[channel].output.capacity == channelCapacity
    modifies b
    ensures r.Ok? ==> b.Valid() && Shares(s, channelCapacity).Ok? && SudtsOf(s).Ok?
    ensures r.Ok? ==>
              var shares, at := Shares(s, channelCapacity).value, (locks[0], locks[1]);
              var d := Draft([channel] + assets, SettlementCells(psh.minCapacity, at, shares, false));
              && Completes(b, d)
              && (b.InCkb() < TWO_64 && b.DueCkb() < TWO_64 && Owed(s) + channelCapacity < TWO_64 ==>
                    Ckb(ChangeCells(b, d)) + b.feeShannon ==
                    Ckb(FundingCells(b, d)) + TotalDust(psh.minCapacity, at, shares) + Ckb(Resolve(b.live, assets))
                      - Owed(s))
              && (old(b.TypePure()) ==>
                    forall u :: u in b.knownUDTs && Listed(u, SudtsOf(s).value) && Covers(b, d, u) ==>
                      b.Out64(u) == b.In64(u))
  {
    hide PerunTransactionBuilder.Valid, PerunTransactionBuilder.Unbalanced, OutputCells, Resolve, Total, Ckb,
         SettlementCells, TotalDust, Shares, StateCkb, RowsCapacity, Completes, ChangeCells, FundingCells, Live,
         SudtsOf, Owed, Listed, Covers, BalancesUDTs, PerunTransactionBuilder.TypePure, Expected;
    PerunScriptHandler.InStep(b);
    assert b.OutCells() == [] by { NoCells(b); }
    var at := (locks[0], locks[1]);
    var error := psh.BuildClose(b, channel, assets, locks, s, channelCapacity, closing);
    if error.Some? {
      return Err(Drafting(error.value));
    }
    ghost var shares := Shares(s, channelCapacity).value;
    ghost var d := Draft([channel] + assets, SettlementCells(psh.minCapacity, at, shares, false));
    SharesNeedRows(s, channelCapacity);
    assert b.inputs == d.inputs && b.OutCells() == d.outputs;
    var groups := Complete(b, d);
    if groups.Err? {
      return Err(Balancing(groups.error));
    }
    CompletesLengths(b, d);
    CloseNet(psh, b, channel, assets, at, s, channelCapacity, shares, SudtsOf(s).value, d);
    if old(b.TypePure()) {
      CloseBalancesUDTs(psh, b, at, s, channelCapacity, shares, SudtsOf(s).value, d);
    }
    r := Ok(groups.value);
  }

  lemma {:induction false} CompletesLengths(b: PerunTransactionBuilder, d: Draft)
    requires Completes(b, d)
    ensures b.AllLive() && |b.outputs| == |b.outputsData| && |b.inputs| >= |d.inputs| && |b.outputs| >= |d.outputs|
  {}

  lemma {:induction false} NoCells(b: PerunTransactionBuilder)
    requires b.outputs == [] && b.outputsData == []
    ensures b.OutCells() == []
  {}

  lemma {:induction false} SharesNeedRows(s: State, channelCapacity: uint64)
    requires WellFormed(s) && Shares(s, channelCapacity).Ok?
    ensures SudtsOf(s).Ok?
  {}

  lemma {:induction false} CloseNet(
    psh: PerunScriptHandler, b: PerunTransactionBuilder, channel: OutPoint, assets: seq<OutPoint>,
    locks: (Script, Script), s: State, channelCapacity: uint64, shares: (Share, Share), rows: seq<SudtBalances>,
    d: Draft)
    requires WellFormed(s) && channel in b.live && Live(b.live, assets)
             && b.live[channel].output.capacity == channelCapacity
    requires Shares(s, channelCapacity) == Ok(shares) && SudtsOf(s) == Ok(rows)
    requires d == Draft([channel] + assets, SettlementCells(psh.minCapacity, locks, shares, false)) && Completes(b, d)
    requires b.InCkb() < TWO_64 && b.DueCkb() < TWO_64 ==> b.InCkb() == b.DueCkb()
    ensures b.InCkb() < TWO_64 && b.DueCkb() < TWO_64 && Owed(s) + channelCapacity < TWO_64 ==>
              Ckb(ChangeCells(b, d)) + b.feeShannon ==
              Ckb(FundingCells(b, d)) + TotalDust(psh.minCapacity, locks, shares) + Ckb(Resolve(b.live, assets))
                - Owed(s)
  {
    hide OutputCells, Resolve, Total, Ckb, SettlementCells, TotalDust, Shares, StateCkb, RowsCapacity, ChangeCells,
         FundingCells, Live, SudtsOf;
    if b.InCkb() < TWO_64 && b.DueCkb() < TWO_64 && Owed(s) + channelCapacity < TWO_64 {
      SettlementConserves(psh.minCapacity, locks, s, channelCapacity, false, 1, shares, rows);
      ChannelAndFunds(b.live, channel, assets);
      NetIsSurplusMinusFee(b, d, TotalDust(psh.minCapacity, locks, shares) + Ckb(Resolve(b.live, assets)) - Owed(s));
    }
  }

  // ---------- SUDTs ----------

  /** The state has a row for u. */
  predicate Listed(u: Script, rows: seq<SudtBalances>) {
    exists k :: 0 <= k < |rows| && rows[k].typeScript == u
  }

  /** The drafted inputs hold at least as much of u, as the builder reads it, as the drafted outputs need. */
  predicate Covers(b: PerunTransactionBuilder, d: Draft, u: Script) {
    Live(b.live, d.inputs) && Expected(b.knownUDTs, u, Resolve(b.live, d.inputs), 0)
      >= Expected(b.knownUDTs, u, d.outputs, 0)
  }

  lemma {:induction false} ClaimIsPresent(
    known: set<Script>, lock: Script, claims: seq<Claim>, extra: uint64, k: nat)
    requires k < |claims| && claims[k].typeScript in known
    ensures claims[k].typeScript in Present(known, ClaimCells(lock, claims, extra, false))
  {
    hide ClaimCells, Present, AmountData;
    var n := |claims| - 1;
    var before := ClaimCells(lock, claims[..n], extra, false);
    var cell := LastClaimIs(lock, claims, extra);
    PresentAppend(known, before, cell);
    if k < n {
      ClaimIsPresent(known, lock, claims[..n], extra, k);
    }
  }

  lemma {:induction false} LastClaimIs(lock: Script, claims: seq<Claim>, extra: uint64) returns (cell: Cell)
    requires claims != []
    ensures cell.output.typ == Some(claims[|claims| - 1].typeScript)
    ensures ClaimCells(lock, claims, extra, false) == ClaimCells(lock, claims[..|claims| - 1], extra, false) + [cell]
  {
    hide AmountData;
    cell := ClaimCell(lock, claims[|claims| - 1], if |claims| == 1 then extra else 0, false);
  }

  lemma {:induction false} PresentConcat(known: set<Script>, a: seq<Cell>, b: seq<Cell>)
    ensures Present(known, a + b) == Present(known, a) + Present(known, b)
  {
    if b == [] {
      assert a + b == a;
    } else {
      PresentConcat(known, a, b[..|b| - 1]);
      assert (a + b)[..|a + b| - 1] == a + b[..|b| - 1];
    }
  }

  lemma {:induction false} ClaimOfRow(rows: seq<SudtBalances>, part: nat, k: nat)
    requires part < 2 && k < |rows|
    ensures ClaimsOf(rows, part)[k].typeScript == rows[k].typeScript
  {
    if k < |rows| - 1 {
      ClaimOfRow(rows[..|rows| - 1], part, k);
    }
  }

  lemma {:induction false} ClaimsOfParty(s: State, channelCapacity: uint64, shares: (Share, Share))
    requires WellFormed(s) && Shares(s, channelCapacity) == Ok(shares)
    ensures SudtsOf(s).Ok? && shares.0.claims == ClaimsOf(SudtsOf(s).value, 0)
  {
    hide SudtsOf, CkbBalance, ClaimsOf;
  }

  lemma {:induction false} ClaimOfPartyIsPresent(known: set<Script>, min: MinCapacity, lock: Script, share: Share,
                                                 k: nat)
    requires k < |share.claims| && share.claims[k].typeScript in known
    ensures share.claims[k].typeScript in Present(known, PartyCells(min, lock, share, false))
  {
    hide ClaimCells, Present;
    ClaimIsPresent(known, lock, share.claims, 0, k);
    ClaimIsPresent(known, lock, share.claims, share.ckb, k);
    PresentConcat(known, [PaymentCell(lock, share.ckb)], ClaimCells(lock, share.claims, 0, false));
  }

  lemma {:induction false} RowIsPresent(
    known: set<Script>, min: MinCapacity, locks: (Script, Script), s: State, channelCapacity: uint64,
    shares: (Share, Share), rows: seq<SudtBalances>, u: Script)
    requires WellFormed(s) && Shares(s, channelCapacity) == Ok(shares) && SudtsOf(s) == Ok(rows) && Listed(u, rows)
             && u in known
    ensures u in Present(known, SettlementCells(min, locks, shares, false))
  {
    hide Shares, SudtsOf, PartyCells, Present;
    var k :| 0 <= k < |rows| && rows[k].typeScript == u;
    ClaimOfRow(rows, 0, k);
    ClaimsOfParty(s, channelCapacity, shares);
    ClaimOfPartyIsPresent(known, min, locks.0, shares.0, k);
    PresentConcat(known, PartyCells(min, locks.0, shares.0, false), PartyCells(min, locks.1, shares.1, false));
  }

  /** Inputs that cover a UDT among the outputs leave no excess of it, whether balancing stops early or not. */
  lemma {:induction false} NoExcessIfCovered(known: set<Script>, ins: seq<Cell>, outs: seq<Cell>, fee: uint64,
                                             u: Script)
    requires u in Present(known, outs) && Expected(known, u, ins, 0) >= Expected(known, u, outs, 0)
    ensures PerunTransactionBuilder.Excess(known, ins, outs, fee, u) == 0
  {
    if PerunTransactionBuilder.LooksBalanced(known, ins, outs, fee) {
      if u in Present(known, ins) {
        assert Expected(known, u, outs, fee) == Expected(known, u, ins, 0);
      } else {
        AbsentTotal(known, u, ins);
      }
    }
  }

  lemma {:induction false} CloseBalancesUDTs(
    psh: PerunScriptHandler, b: PerunTransactionBuilder, locks: (Script, Script), s: State, channelCapacity: uint64,
    shares: (Share, Share), rows: seq<SudtBalances>, d: Draft)
    requires WellFormed(s) && Shares(s, channelCapacity) == Ok(shares) && SudtsOf(s) == Ok(rows)
    requires d.outputs == SettlementCells(psh.minCapacity, locks, shares, false) && Live(b.live, d.inputs)
             && BalancesUDTs(b, d)
    ensures forall u :: u in b.knownUDTs && Listed(u, rows) && Covers(b, d, u) ==> b.Out64(u) == b.In64(u)
  {
    forall u | u in b.knownUDTs && Listed(u, rows) && Covers(b, d, u) ensures b.Out64(u) == b.In64(u) {
      hide SettlementCells, Shares, SudtsOf, Listed, Present, Expected, PerunTransactionBuilder.Excess, Resolve;
      RowIsPresent(b.knownUDTs, psh.minCapacity, locks, s, channelCapacity, shares, rows, u);
      NoExcessIfCovered(b.knownUDTs, Resolve(b.live, d.inputs), d.outputs, b.feeShannon, u);
    }
  }

  /** The 8-byte read of an SUDT cell gives its 16-byte amount modulo 2^64: the amount itself exactly if it is below
      2^64. */
  lemma {:induction false} LowHalf(h: Script, c: Cell)
    requires c.output.typ == Some(h) && |c.data| >= 16
    ensures UdtAmount(c.data) == Wrap(SudtAmount(h, c))
    ensures UdtAmount(c.data) == SudtAmount(h, c) <==> SudtAmount(h, c) < TWO_64
  {
    hide LE.UnpackUint64;
    Halves(LE.UnpackUint128(c.data));
  }

  lemma {:induction false} Halves(u: LE.Uint128)
    ensures Wrap(u.Int()) == u.lo
    ensures u.Int() < TWO_64 ==> u.hi == 0
  {}

  /** All cells of SUDT h hold 16-byte amounts below 2^64. */
  predicate Plain(h: Script, cells: seq<Cell>) {
    forall c :: c in cells && c.output.typ == Some(h) ==> |c.data| >= 16 && SudtAmount(h, c) < TWO_64
  }

  lemma {:induction false} PlainTotals(known: set<Script>, h: Script, cells: seq<Cell>)
    requires h in known && Plain(h, cells)
    ensures Total(known, h, cells) == SudtTotal(h, cells)
  {
    if cells != [] {
      var c := cells[|cells| - 1];
      assert c in cells;
      PlainTotals(known, h, cells[..|cells| - 1]);
      if c.output.typ == Some(h) {
        LowHalf(h, c);
      }
    }
  }

  /** In full amounts: if all amounts of u in the transaction, and their sums, are below 2^64, balanced reads mean that
      what the submitter's cells gain of u is what the drafted inputs hold above the drafted outputs. */
  lemma {:induction false} SudtNet(b: PerunTransactionBuilder, d: Draft, u: Script)
    requires Completes(b, d) && Live(b.live, d.inputs) && u in b.knownUDTs && b.Out64(u) == b.In64(u)
    requires Plain(u, b.InCells()) && Plain(u, b.OutCells())
    requires SudtTotal(u, b.InCells()) < TWO_64 && SudtTotal(u, b.OutCells()) < TWO_64
    ensures SudtTotal(u, b.InCells()) == SudtTotal(u, b.OutCells())
    ensures SudtTotal(u, ChangeCells(b, d)) - SudtTotal(u, FundingCells(b, d)) ==
            SudtTotal(u, Resolve(b.live, d.inputs)) - SudtTotal(u, d.outputs)
  {
    hide Resolve, Total, OutputCells, SudtTotal, Live, Plain;
    PlainTotals(b.knownUDTs, u, b.InCells());
    PlainTotals(b.knownUDTs, u, b.OutCells());
    WrapSmall(SudtTotal(u, b.InCells()));
    WrapSmall(SudtTotal(u, b.OutCells()));
    var rest := b.inputs[|d.inputs|..];
    assert b.inputs == d.inputs + rest;
    ResolveConcat(b.live, d.inputs, rest);
    var drafted := Resolve(b.live, d.inputs);
    assert b.InCells() == drafted + FundingCells(b, d);
    assert b.OutCells() == d.outputs + ChangeCells(b, d);
    SudtConcat(u, drafted, FundingCells(b, d));
    SudtConcat(u, d.outputs, ChangeCells(b, d));
  }

  /** From 2^64 on amounts get lost: a cell of 2^64 reads as 0, so a transaction that spends it for nothing looks
      balanced. */
  lemma {:induction false} HighHalfIsLost(u: Script, lock: Script, rent: uint64, fee: uint64)
    requires rent + fee < TWO_64
    ensures var ins := [Cell(CellOutput(rent + fee, lock, Some(u)), AmountData(TWO_64))];
            var outs := [Cell(CellOutput(rent, lock, Some(u)), AmountData(0))];
            && PerunTransactionBuilder.LooksBalanced({u}, ins, outs, fee)
            && SudtTotal(u, ins) == TWO_64 && SudtTotal(u, outs) == 0
  {
    hide AmountData, UdtAmount;
    var i := Cell(CellOutput(rent + fee, lock, Some(u)), AmountData(TWO_64));
    var o := Cell(CellOutput(rent, lock, Some(u)), AmountData(0));
    PerunTransactionBuilder.SingleCell({u}, i);
    PerunTransactionBuilder.SingleCell({u}, o);
    SingleCell(u, i);
    SingleCell(u, o);
    WrapSmall(0);
    WrapSmall(rent + fee);
    assert UdtAmount(i.data) == Wrap(TWO_64) == 0 && UdtAmount(o.data) == 0;
    assert Present({u}, [i]) == {ZERO_HASH, u} && Present({u}, [o]) + {ZERO_HASH} == {ZERO_HASH, u};
  }

  // ---------- at the end of a channel's life ----------

  /** These cells hold what the channel has locked of CKBytes and SUDT h. */
  predicate HoldFunds(h: Script, live: map<OutPoint, Cell>, assets: seq<OutPoint>, funds: seq<Cell>) {
    Live(live, assets) && Ckb(Resolve(live, assets)) == Ckb(funds)
    && SudtTotal(h, Resolve(live, assets)) == SudtTotal(h, funds)
  }

  lemma {:induction false} HoldFundsMeans(h: Script, live: map<OutPoint, Cell>, assets: seq<OutPoint>,
                                          funds: seq<Cell>)
    requires HoldFunds(h, live, assets, funds)
    ensures Live(live, assets) && Ckb(Resolve(live, assets)) == Ckb(funds)
    ensures SudtTotal(h, Resolve(live, assets)) == SudtTotal(h, funds)
  {}

  lemma {:induction false} TakeOut(h: Script, cells: seq<Cell>, j: nat)
    requires j < |cells|
    ensures var rest := cells[..j] + cells[j + 1..];
            && Ckb(cells) == Ckb(rest) + Ckb([cells[j]])
            && SudtTotal(h, cells) == SudtTotal(h, rest) + SudtTotal(h, [cells[j]])
  {
    hide Ckb, SudtTotal;
    assert cells == cells[..j] + [cells[j]] + cells[j + 1..];
    CellsConcat(h, cells[..j] + [cells[j]], cells[j + 1..]);
    CellsConcat(h, cells[..j], [cells[j]]);
    CellsConcat(h, cells[..j], cells[j + 1..]);
  }

  lemma {:induction false} Cancel(a: multiset<Cell>, b: multiset<Cell>, c: Cell)
    requires a + multiset{c} == b + multiset{c}
    ensures a == b
  {
    assert a == (a + multiset{c}) - multiset{c};
    assert b == (b + multiset{c}) - multiset{c};
  }

  lemma {:induction false} Occurs(c: Cell, cells: seq<Cell>) returns (j: nat)
    requires c in multiset(cells)
    ensures j < |cells| && cells[j] == c
  {
    j :| j < |cells| && cells[j] == c;
  }

  lemma {:induction false} RestsAgree(a: seq<Cell>, b: seq<Cell>, j: nat)
    requires multiset(a) == multiset(b) && a != [] && j < |b| && b[j] == a[0]
    ensures multiset(a[1..]) == multiset(b[..j] + b[j + 1..])
  {
    Without(a, 0);
    assert a[..0] + a[0 + 1..] == a[1..];
    Without(b, j);
    Cancel(multiset(a[1..]), multiset(b[..j] + b[j + 1..]), a[0]);
  }

  lemma {:induction false} Without(cells: seq<Cell>, j: nat)
    requires j < |cells|
    ensures multiset(cells) == multiset(cells[..j] + cells[j + 1..]) + multiset{cells[j]}
  {
    assert cells == cells[..j] + [cells[j]] + cells[j + 1..];
  }

  lemma {:induction false} AnyOrder(h: Script, a: seq<Cell>, b: seq<Cell>)
    requires multiset(a) == multiset(b)
    ensures Ckb(a) == Ckb(b) && SudtTotal(h, a) == SudtTotal(h, b)
    decreases |a|
  {
    hide Ckb, SudtTotal;
    SameSize(a, b);
    if a != [] {
      var j := Occurs(a[0], b);
      RestsAgree(a, b, j);
      AnyOrder(h, a[1..], b[..j] + b[j + 1..]);
      TakeOut(h, a, 0);
      assert a[..0] + a[0 + 1..] == a[1..];
      TakeOut(h, b, j);
    } else {
      assert b == [];
    }
  }

  lemma {:induction false} SameSize(a: seq<Cell>, b: seq<Cell>)
    requires multiset(a) == multiset(b)
    ensures |a| == |b| && forall c :: c in a ==> c in multiset(b)
  {
    assert |multiset(a)| == |multiset(b)|;
  }

  /** The client lists the funds cells newest first; the order does not matter. */
  lemma {:induction false} FundsInAnyOrder(h: Script, live: map<OutPoint, Cell>, assets: seq<OutPoint>,
                                           funds: seq<Cell>)
    requires Live(live, assets) && multiset(Resolve(live, assets)) == multiset(funds)
    ensures HoldFunds(h, live, assets, funds)
  {
    AnyOrder(h, Resolve(live, assets), funds);
  }

  /** Closing a channel that was opened, funded and disputed in any way: its funds cells hold what is owed and what the
      settled state has moved into sub-channels, so just that and the dust, less the fee, is what the submitter
      gains. */
  lemma {:induction false} CloseAfterRun(
    h: Script, env: Lifecycle.Env, events: seq<Lifecycle.Event>, b: PerunTransactionBuilder, d: Draft,
    channel: OutPoint, assets: seq<OutPoint>, t: State, shares: (Share, Share))
    requires Lifecycle.Run(env, events).Open? && Lifecycle.Run(env, events).status.funded && channel in b.live
    requires WellFormed(t) && WellFormed(Lifecycle.Run(env, events).state)
             && Lifecycle.SameSums(Lifecycle.Run(env, events).state, t)
    requires HoldFunds(h, b.live, assets, Lifecycle.Run(env, events).funds)
    requires Shares(t, b.live[channel].output.capacity) == Ok(shares) && SudtsOf(t).Ok?
    requires d == Draft([channel] + assets, SettlementCells(env.psh.minCapacity, env.locks, shares, false))
             && Completes(b, d)
    requires b.InCkb() == b.DueCkb() < TWO_64 && Owed(t) + b.live[channel].output.capacity < TWO_64
    ensures var c := Lifecycle.Run(env, events);
            && WellFormed(c.initial)
            && Ckb(ChangeCells(b, d)) + b.feeShannon ==
               Ckb(FundingCells(b, d)) + TotalDust(env.psh.minCapacity, env.locks, shares) + Lifecycle.LockedCkb(t)
                 - Lifecycle.LockedCkb(c.initial)
            && SudtTotal(h, Resolve(b.live, assets)) ==
               SudtTotal(h, d.outputs) + Lifecycle.LockedSudt(h, t, |t.assets|)
                 - Lifecycle.LockedSudt(h, c.initial, |c.initial.assets|)
  {
    hide *;
    HoldFundsMeans(h, b.live, assets, Lifecycle.Run(env, events).funds);
    Lifecycle.FundsOfRun(h, env, events, t);
    OwedIs(t);
    SettlementConserves(env.psh.minCapacity, env.locks, t, b.live[channel].output.capacity, false, h, shares,
                        SudtsOf(t).value);
    CloseNet(env.psh, b, channel, assets, env.locks, t, b.live[channel].output.capacity, shares, SudtsOf(t).value, d);
  }

  lemma {:induction false} OwedIs(s: State)
    requires WellFormed(s) && SudtsOf(s).Ok?
    ensures Owed(s) == StateCkb(s) + 2 * RowsCapacity(SudtsOf(s).value)
  {}

  // ---------- a second force close ----------

  lemma {:induction false} OneInput(live: map<OutPoint, Cell>, op: OutPoint)
    requires op in live
    ensures Live(live, [op]) && Ckb(Resolve(live, [op])) == live[op].output.capacity
  {
    assert [op][..0] == [];
    assert Resolve(live, [op]) == [live[op]];
    SingleCell(1, live[op]);
  }

  lemma {:induction false} InputsConcat(live: map<OutPoint, Cell>, a: seq<OutPoint>, b: seq<OutPoint>)
    requires Live(live, a) && Live(live, b)
    ensures Live(live, a + b) && Ckb(Resolve(live, a + b)) == Ckb(Resolve(live, a)) + Ckb(Resolve(live, b))
  {
    var all := a + b;
    assert forall i :: 0 <= i < |all| ==> all[i] == if i < |a| then a[i] else b[i - |a|];
    ResolveConcat(live, a, b);
    TotalConcat({}, ZERO_HASH, Resolve(live, a), Resolve(live, b));
  }

  lemma {:induction false} ForceCloseInputs(
    live: map<OutPoint, Cell>, channel: OutPoint, vcCell: OutPoint, assets: seq<OutPoint>, minCkb: OutPoint)
    requires channel in live && vcCell in live && minCkb in live && Live(live, assets)
    ensures var ops := [channel, vcCell] + assets + [minCkb];
            && Live(live, ops)
            && Ckb(Resolve(live, ops))
               == live[channel].output.capacity + live[vcCell].output.capacity + Ckb(Resolve(live, assets)) +
                                          live[minCkb].output.capacity
  {
    hide Live, Resolve, Ckb;
    OneInput(live, channel);
    OneInput(live, vcCell);
    OneInput(live, minCkb);
    InputsConcat(live, [channel], [vcCell]);
    assert [channel] + [vcCell] == [channel, vcCell];
    InputsConcat(live, [channel, vcCell], assets);
    InputsConcat(live, [channel, vcCell] + assets, [minCkb]);
  }

  /** A second force close: the submitter gets its minimum CKB input back, gains the dust and what the funds cells hold
      above what both channels are owed, and pays the fee - and the rent once more if it is refunded to both parties. */
  lemma {:induction false} SecondForceCloseNet(
    psh: PerunScriptHandler, b: PerunTransactionBuilder, channel: OutPoint, vcCell: OutPoint, assets: seq<OutPoint>,
    minCkb: OutPoint, locks: (Script, Script), s: State, vc: State, indexMap: seq<nat>, vcStatus: VirtualChannelStatus,
    x: Script, d: Draft, shares: (Share, Share), rows: seq<SudtBalances>, vrows: seq<SudtBalances>)
    requires channel in b.live && vcCell in b.live && minCkb in b.live && Live(b.live, assets)
    requires WellFormed(s) && WellFormed(vc) && Permutes(indexMap) && psh.OwnerScript(vcStatus.owner) == Some(x)
    requires var channelCapacity, vcCapacity := b.live[channel].output.capacity, b.live[vcCell].output.capacity;
             && VcShares(s, vc, indexMap, channelCapacity, PerunScriptHandler.Refunds(x, locks, vcCapacity))
                == Ok(shares)
             && psh.SecondForceCloseDraft(channel, vcCell, assets, minCkb, locks, s, vc, indexMap, channelCapacity,
                                          vcCapacity, vcStatus) == Ok(d)
             && StateCkb(s) + StateCkb(vc) + 2 * RowsCapacity(rows) + channelCapacity + 2 * vcCapacity < TWO_64
    requires SudtsOf(s) == Ok(rows) && SudtsOf(vc) == Ok(vrows) && Aligned(rows, vrows) && SmallAmounts(rows, vrows)
    requires Completes(b, d) && b.InCkb() == b.DueCkb()
    ensures var twice, owed := x == locks.0 == locks.1, StateCkb(s) + StateCkb(vc) + 2 * RowsCapacity(rows);
            Ckb(ChangeCells(b, d)) + b.feeShannon + (if twice then b.live[vcCell].output.capacity else 0) ==
            Ckb(FundingCells(b, d)) + b.live[minCkb].output.capacity + TotalDust(psh.minCapacity, locks, shares) +
            Ckb(Resolve(b.live, assets)) - owed
  {
    SecondDraftIs(psh, channel, vcCell, assets, minCkb, locks, s, vc, indexMap, b.live[channel].output.capacity,
                  b.live[vcCell].output.capacity, vcStatus, x, shares, d);
    hide *;
    var channelCapacity, vcCapacity := b.live[channel].output.capacity, b.live[vcCell].output.capacity;
    VcRent.SecondForceCloseConserves(psh, channel, vcCell, assets, minCkb, locks, s, vc, indexMap, channelCapacity,
                                     vcCapacity, vcStatus, 1, x,
                                     d, shares, rows, vrows);
    ForceCloseInputs(b.live, channel, vcCell, assets, minCkb);
    var twice, owed := x == locks.0 == locks.1, StateCkb(s) + StateCkb(vc) + 2 * RowsCapacity(rows);
    NetIsSurplusMinusFee(b, d,
                         b.live[minCkb].output.capacity + TotalDust(psh.minCapacity, locks, shares)
                           + Ckb(Resolve(b.live, assets)) - owed -
                               if twice then vcCapacity else 0);
  }

  // ---------- other ends of a channel's life ----------

  /** What the submitter of a transaction gains that settles a channel after any run. `more` is what its inputs hold
      besides the channel cell and the funds cells, `rest` what its outputs hold besides the settlement. */
  lemma {:induction false} SettlementNet(h: Script, b: PerunTransactionBuilder, d: Draft, e: Lifecycle.Chain, more: int,
                                         rest: int)
    requires e.Closed? && Lifecycle.Conserved(h, e) && WellFormed(e.initial) && (e.vc.Some? ==> WellFormed(e.vc.value))
    requires Completes(b, d) && Live(b.live, d.inputs) && b.InCkb() == b.DueCkb()
    requires Ckb(Resolve(b.live, d.inputs)) == Ckb(e.funds) + e.capacity + more && Ckb(d.outputs) == Ckb(e.paid) + rest
    requires var left := Lifecycle.LeftCkb(e.initial, e.settled, e.vc);
             Ckb(e.funds) + e.capacity + e.refunded - left < TWO_64
    ensures Ckb(ChangeCells(b, d)) + b.feeShannon ==
            Ckb(FundingCells(b, d)) + e.dust + Lifecycle.LeftCkb(e.initial, e.settled, e.vc) - e.refunded + more - rest
  {
    ClosedCkb(h, e);
    hide *;
    NetIsSurplusMinusFee(b, d, e.dust + Lifecycle.LeftCkb(e.initial, e.settled, e.vc) - e.refunded + more - rest);
  }

  lemma {:induction false} ClosedCkb(h: Script, e: Lifecycle.Chain)
    requires e.Closed? && Lifecycle.Conserved(h, e)
    requires e.vc.Some? ==> WellFormed(e.vc.value)
    requires Ckb(e.funds) + e.capacity + e.refunded - Lifecycle.LeftCkb(e.initial, e.settled, e.vc) < TWO_64
    ensures Ckb(e.paid) + e.dust ==
            Ckb(e.funds) + e.capacity + e.refunded - Lifecycle.LeftCkb(e.initial, e.settled, e.vc)
  {
    hide Ckb, Lifecycle.LeftCkb, SudtTotal, Lifecycle.LeftSudt;
  }

  /** The run goes on with event e, which closes the channel. */
  lemma {:induction false} ClosesRun(h: Script, env: Lifecycle.Env, events: seq<Lifecycle.Event>, e: Lifecycle.Event)
      returns (end: Lifecycle.Chain)
    requires Lifecycle.Run(env, events).Open? && (e.CloseWithVC? || e.Abort?)
    requires Lifecycle.Next(env, Lifecycle.Run(env, events), e).Some?
    ensures Lifecycle.Next(env, Lifecycle.Run(env, events), e) == Some(end) && end.Closed?
    ensures Lifecycle.Conserved(h, end) && WellFormed(end.initial) && WellFormed(end.settled)
    ensures end.vc.Some? ==> WellFormed(end.vc.value)
    ensures SudtTotal(h, end.paid) + Lifecycle.LeftSudt(h, end.initial, end.settled, end.vc) == SudtTotal(h, end.funds)
    ensures var c := Lifecycle.Run(env, events);
            end.initial == c.initial && end.funds == c.funds && end.capacity == env.Capacity(c.status)
  {
    hide Ckb, SudtTotal, Lifecycle.Run, Shares, VcShares, SettlementCells, TotalDust, SudtsOf, CkbBalance;
    Lifecycle.RunConserves(h, env, events);
    Lifecycle.StepConserves(h, env, Lifecycle.Run(env, events), e);
    end := Lifecycle.Next(env, Lifecycle.Run(env, events), e).value;
  }

  /** Aborting after any run: party 0 gets back what it has locked, and the submitter just the dust, less the fee. */
  lemma {:induction false} AbortAfterRun(h: Script, env: Lifecycle.Env, events: seq<Lifecycle.Event>,
                                         b: PerunTransactionBuilder, d: Draft, channel: OutPoint, assets: seq<OutPoint>)
    requires var c := Lifecycle.Run(env, events);
             && c.Open? && Lifecycle.Next(env, c, Lifecycle.Abort).Some?
             && channel in b.live && b.live[channel].output.capacity == env.Capacity(c.status)
             && HoldFunds(h, b.live, assets, c.funds) && WellFormed(c.initial)
             && env.psh.AbortDraft(channel, assets, env.locks.0, c.initial, env.Capacity(c.status)) == Ok(d)
             && Ckb(c.funds) + env.Capacity(c.status) < TWO_64
    requires Completes(b, d) && b.InCkb() == b.DueCkb()
    ensures var end := Lifecycle.Next(env, Lifecycle.Run(env, events), Lifecycle.Abort).value;
            && end.Closed? && Ckb(ChangeCells(b, d)) + b.feeShannon == Ckb(FundingCells(b, d)) + end.dust
    ensures SudtTotal(h, Resolve(b.live, assets)) == SudtTotal(h, d.outputs)
  {
    var c := Lifecycle.Run(env, events);
    AbortEnds(env, c, channel, assets, d);
    hide *;
    var end := ClosesRun(h, env, events, Lifecycle.Abort);
    HoldFundsMeans(h, b.live, assets, c.funds);
    ChannelAndFunds(b.live, channel, assets);
    NothingLeft(h, c.initial);
    SettlementNet(h, b, d, end, 0, 0);
  }

  lemma {:induction false} AbortEnds(env: Lifecycle.Env, c: Lifecycle.Chain, channel: OutPoint, assets: seq<OutPoint>,
                                     d: Draft)
    requires c.Open? && WellFormed(c.initial) && Lifecycle.Next(env, c, Lifecycle.Abort).Some?
    requires env.psh.AbortDraft(channel, assets, env.locks.0, c.initial, env.Capacity(c.status)) == Ok(d)
    ensures var end := Lifecycle.Next(env, c, Lifecycle.Abort).value;
            && end.Closed? && end.paid == d.outputs && end.refunded == 0 && end.settled == c.initial && end.vc == None
    ensures d.inputs == [channel] + assets
  {
    hide PartyShare, PartyCells, Dust;
  }

  lemma {:induction false} NothingLeft(h: Script, s: State)
    requires WellFormed(s)
    ensures Lifecycle.LeftCkb(s, s, None) == 0 && Lifecycle.LeftSudt(h, s, s, None) == 0
  {}

  lemma {:induction false} VcCloseEnds(env: Lifecycle.Env, c: Lifecycle.Chain, t: State, vc: State, indexMap: seq<nat>,
                                       refunds: (uint64, uint64), shares: (Share, Share))
    requires c.Open? && Lifecycle.Next(env, c, Lifecycle.CloseWithVC(t, vc, indexMap, refunds)).Some?
    requires WellFormed(t) && WellFormed(vc) && VcShares(t, vc, indexMap, env.Capacity(c.status), refunds) == Ok(shares)
    ensures var end := Lifecycle.Next(env, c, Lifecycle.CloseWithVC(t, vc, indexMap, refunds)).value;
            && end.Closed? && end.paid == SettlementCells(env.psh.minCapacity, env.locks, shares, true)
            && end.dust == TotalDust(env.psh.minCapacity, env.locks, shares)
            && end.refunded == refunds.0 + refunds.1 && end.settled == t && end.vc == Some(vc)
  {
    hide VcShares, SettlementCells, TotalDust;
  }

  /** The first force close with a virtual channel, after any run: the submitter gains the dust and what neither channel
      pays out, and pays the fee and for a virtual channel cell that has grown. */
  lemma {:induction false} FirstForceCloseAfterRun(
    h: Script, env: Lifecycle.Env, events: seq<Lifecycle.Event>, b: PerunTransactionBuilder, d: Draft,
    channel: OutPoint, vcCell: OutPoint, assets: seq<OutPoint>, t: State, vc: State, indexMap: seq<nat>, vcts: Script,
    vcStatus: VirtualChannelStatus, shares: (Share, Share))
    requires var c := Lifecycle.Run(env, events);
             && c.Open? && Lifecycle.Next(env, c, Lifecycle.CloseWithVC(t, vc, indexMap, (0, 0))).Some?
             && channel in b.live && vcCell in b.live && b.live[channel].output.capacity == env.Capacity(c.status)
             && HoldFunds(h, b.live, assets, c.funds) && WellFormed(t) && WellFormed(vc)
             && VcShares(t, vc, indexMap, env.Capacity(c.status), (0, 0)) == Ok(shares)
             && env.psh.FirstForceCloseDraft(channel, vcCell, assets, env.locks, t, vc, indexMap,
                                             env.Capacity(c.status), vcts, vcStatus) == Ok(d)
             && Ckb(c.funds) + env.Capacity(c.status) - Lifecycle.LeftCkb(c.initial, t, Some(vc)) < TWO_64
    requires h != vcts && Completes(b, d) && b.InCkb() == b.DueCkb()
    ensures var c := Lifecycle.Run(env, events);
            && WellFormed(c.initial)
            && Ckb(ChangeCells(b, d)) + b.feeShannon +
               env.psh.VcCell(vcts, ForceClosedOnce(vcStatus)).output.capacity ==
               Ckb(FundingCells(b, d)) + TotalDust(env.psh.minCapacity, env.locks, shares) +
               Lifecycle.LeftCkb(c.initial, t, Some(vc)) + b.live[vcCell].output.capacity
            && SudtTotal(h, Resolve(b.live, assets)) ==
               SudtTotal(h, d.outputs) + Lifecycle.LeftSudt(h, c.initial, t, Some(vc))
  {
    var c, cell := Lifecycle.Run(env, events), env.psh.VcCell(vcts, ForceClosedOnce(vcStatus));
    FirstDraftIs(env.psh, channel, vcCell, assets, env.locks, t, vc, indexMap, env.Capacity(c.status), vcts, vcStatus,
                 shares, d);
    hide *;
    VcCloseEnds(env, c, t, vc, indexMap, (0, 0), shares);
    var end := ClosesRun(h, env, events, Lifecycle.CloseWithVC(t, vc, indexMap, (0, 0)));
    HoldFundsMeans(h, b.live, assets, c.funds);
    FirstInputs(b.live, channel, vcCell, assets);
    CellsConcat(h, end.paid, [cell]);
    SingleCell(h, cell);
    OfVcts(h, env.psh, vcts, ForceClosedOnce(vcStatus));
    SettlementNet(h, b, d, end, b.live[vcCell].output.capacity, cell.output.capacity);
  }

  lemma {:induction false} OfVcts(h: Script, psh: PerunScriptHandler, vcts: Script, status: VirtualChannelStatus)
    ensures h != vcts ==> SudtAmount(h, psh.VcCell(vcts, status)) == 0
  {}

  lemma {:induction false} FirstDraftIs(
    psh: PerunScriptHandler, channel: OutPoint, vcCell: OutPoint, assets: seq<OutPoint>, locks: (Script, Script),
    s: State, vc: State, indexMap: seq<nat>, channelCapacity: uint64, vcts: Script, vcStatus: VirtualChannelStatus,
    shares: (Share, Share), d: Draft)
    requires WellFormed(s) && WellFormed(vc) && VcShares(s, vc, indexMap, channelCapacity, (0, 0)) == Ok(shares)
    requires psh.FirstForceCloseDraft(channel, vcCell, assets, locks, s, vc, indexMap, channelCapacity, vcts, vcStatus)
             == Ok(d)
    ensures d.inputs == [channel, vcCell] + assets
    ensures d.outputs == SettlementCells(psh.minCapacity, locks, shares, true) + [psh.VcCell(vcts,
                                                                                             ForceClosedOnce(vcStatus))]
  {
    hide VcShares, SettlementCells;
  }

  lemma {:induction false} FirstInputs(live: map<OutPoint, Cell>, channel: OutPoint, vcCell: OutPoint,
                                       assets: seq<OutPoint>)
    requires channel in live && vcCell in live && Live(live, assets)
    ensures var ops := [channel, vcCell] + assets;
            && Live(live, ops)
            && Ckb(Resolve(live, ops)) ==
               live[channel].output.capacity + live[vcCell].output.capacity + Ckb(Resolve(live, assets))
  {
    hide Live, Resolve, Ckb;
    OneInput(live, channel);
    OneInput(live, vcCell);
    InputsConcat(live, [channel], [vcCell]);
    assert [channel] + [vcCell] == [channel, vcCell];
    InputsConcat(live, [channel, vcCell], assets);
  }

  /** The second one, after any run of its own channel: the submitter gets its minimum CKB input back, gains the dust
      and what neither channel pays out, and pays the fee - and the rent once more if both parties are refunded. */
  lemma {:induction false} SecondForceCloseAfterRun(
    h: Script, env: Lifecycle.Env, events: seq<Lifecycle.Event>, b: PerunTransactionBuilder, d: Draft,
    channel: OutPoint, vcCell: OutPoint, assets: seq<OutPoint>, minCkb: OutPoint, t: State, vc: State,
    indexMap: seq<nat>, vcStatus: VirtualChannelStatus, x: Script, shares: (Share, Share))
    requires channel in b.live && vcCell in b.live && minCkb in b.live && env.psh.OwnerScript(vcStatus.owner) == Some(x)
    requires var c, rent := Lifecycle.Run(env, events), b.live[vcCell].output.capacity;
             var refunds := PerunScriptHandler.Refunds(x, env.locks, rent);
             && c.Open? && Lifecycle.Next(env, c, Lifecycle.CloseWithVC(t, vc, indexMap, refunds)).Some?
             && b.live[channel].output.capacity == env.Capacity(c.status)
             && HoldFunds(h, b.live, assets, c.funds) && WellFormed(t) && WellFormed(vc)
             && VcShares(t, vc, indexMap, env.Capacity(c.status), refunds) == Ok(shares)
             && env.psh.SecondForceCloseDraft(channel, vcCell, assets, minCkb, env.locks, t, vc, indexMap,
                                              env.Capacity(c.status), rent, vcStatus) == Ok(d)
             && Ckb(c.funds) + env.Capacity(c.status) + 2 * rent - Lifecycle.LeftCkb(c.initial, t, Some(vc)) < TWO_64
    requires Completes(b, d) && b.InCkb() == b.DueCkb()
    ensures var c := Lifecycle.Run(env, events);
            && WellFormed(c.initial)
            && Ckb(ChangeCells(b, d)) + b.feeShannon +
               (if x == env.locks.0 == env.locks.1 then b.live[vcCell].output.capacity else 0) ==
               Ckb(FundingCells(b, d)) + b.live[minCkb].output.capacity +
               TotalDust(env.psh.minCapacity, env.locks, shares) + Lifecycle.LeftCkb(c.initial, t, Some(vc))
            && SudtTotal(h, Resolve(b.live, assets)) ==
               SudtTotal(h, d.outputs) + Lifecycle.LeftSudt(h, c.initial, t, Some(vc))
  {
    var c, rent := Lifecycle.Run(env, events), b.live[vcCell].output.capacity;
    var refunds, back := PerunScriptHandler.Refunds(x, env.locks, rent),
      PerunScriptHandler.RefundCells(x, env.locks, rent);
    SecondDraftIs(env.psh, channel, vcCell, assets, minCkb, env.locks, t, vc, indexMap, env.Capacity(c.status), rent,
                  vcStatus, x, shares, d);
    RefundsAre(h, x, env.locks, rent);
    hide *;
    VcCloseEnds(env, c, t, vc, indexMap, refunds, shares);
    var end := ClosesRun(h, env, events, Lifecycle.CloseWithVC(t, vc, indexMap, refunds));
    HoldFundsMeans(h, b.live, assets, c.funds);
    ForceCloseInputs(b.live, channel, vcCell, assets, minCkb);
    CellsConcat(h, end.paid, back);
    SettlementNet(h, b, d, end, rent + b.live[minCkb].output.capacity, Ckb(back));
  }

  lemma {:induction false} RefundsAre(h: Script, x: Script, locks: (Script, Script), rent: uint64)
    ensures var refunds, back := PerunScriptHandler.Refunds(x, locks, rent),
              PerunScriptHandler.RefundCells(x, locks, rent);
            && refunds.0 + refunds.1 + Ckb(back) == (if x == locks.0 == locks.1 then 2 * rent else rent)
            && SudtTotal(h, back) == 0
  {
    VcRent.RefundedOnce(x, locks, rent);
    VcRent.NoSudt(h, x, rent);
  }

  lemma {:induction false} SecondDraftIs(
    psh: PerunScriptHandler, channel: OutPoint, vcCell: OutPoint, assets: seq<OutPoint>, minCkb: OutPoint,
    locks: (Script, Script), s: State, vc: State, indexMap: seq<nat>, channelCapacity: uint64, vcCapacity: uint64,
    vcStatus: VirtualChannelStatus, x: Script, shares: (Share, Share), d: Draft)
    requires WellFormed(s) && WellFormed(vc) && psh.OwnerScript(vcStatus.owner) == Some(x)
    requires VcShares(s, vc, indexMap, channelCapacity, PerunScriptHandler.Refunds(x, locks, vcCapacity)) == Ok(shares)
    requires psh.SecondForceCloseDraft(channel, vcCell, assets, minCkb, locks, s, vc, indexMap, channelCapacity,
                                       vcCapacity, vcStatus) == Ok(d)
    ensures d.inputs == [channel, vcCell] + assets + [minCkb]
    ensures d.outputs == SettlementCells(psh.minCapacity, locks, shares, true)
                         + PerunScriptHandler.RefundCells(x, locks, vcCapacity)
  {
    hide VcShares, SettlementCells;
  }

  // ---------- which states a force close with a virtual channel settles ----------

  /** Client.ForceCloseWithVC settles its own two states if they are ahead of the ledger's by the product order, and
      otherwise takes both balances from the ledger - also when only one of the two states is behind. Either way
      neither version is below the ledger's. */
  method ChooseStates(parent: ChannelState, vc: ChannelState, onParent: PackedState, onVc: PackedState)
      returns (error: Option<PackError>)
    requires parent != vc && WellFormed(parent.Value()) && WellFormed(vc.Value())
    requires Fits(parent.assets, onParent) && Fits(vc.assets, onVc)
    modifies parent, vc
    ensures var ahead := Disputes.CheckVersion(old(parent.version), onParent.version,
                                               Some((old(vc.version), onVc.version)));
            && (ahead ==> error == None && parent.Value() == old(parent.Value()) && vc.Value() == old(vc.Value()))
            && (!ahead && error == None ==>
                  parent.Value() == Updated(old(parent.Value()), onParent)
                    && vc.Value() == Updated(old(vc.Value()), onVc))
    ensures error == None ==> parent.version >= onParent.version && vc.version >= onVc.version
    ensures error == None || CKBytes !in parent.assets || Invalid in parent.assets || CKBytes !in vc.assets
            || Invalid in vc.assets
  {
    hide Updated, Fits, WellFormed;
    Disputes.CheckIsStrictOrder((onParent.version, onVc.version), (parent.version, vc.version));
    if Disputes.CheckVersion(parent.version, onParent.version, Some((vc.version, onVc.version))) {
      return None;
    }
    NewestVersion(parent.Value(), onParent);
    NewestVersion(vc.Value(), onVc);
    error := parent.UpdateState(onParent);
    if error.Some? {
      return;
    }
    error := vc.UpdateState(onVc);
  }

  lemma {:induction false} NewestVersion(s: State, p: PackedState)
    requires WellFormed(s) && Fits(s.assets, p)
    ensures Updated(s, p).version >= p.version && Updated(s, p).version >= s.version
  {}

  /** A client that is behind in the virtual channel settles the ledger's parent balances, even if its own parent state
      is newer. */
  lemma {:induction false} BehindInOneIsBehind(parent: State, t: State, vc: State, u: State, i: nat)
    requires WellFormed(parent) && WellFormed(t) && parent.assets == t.assets && Distinct(t.assets)
             && PackChannelState(t).Ok?
    requires parent.version > t.version && vc.version < u.version && i < |t.assets| && t.assets[i].Sudt?
    ensures !Disputes.CheckVersion(parent.version, t.version, Some((vc.version, u.version)))
    ensures Fits(parent.assets, PackChannelState(t).value)
    ensures var settled := Updated(parent, PackChannelState(t).value);
            settled.version == parent.version && |settled.balances| == |t.balances|
              && settled.balances[i] == t.balances[i]
  {
    PackThenUpdate(parent, t);
  }
}

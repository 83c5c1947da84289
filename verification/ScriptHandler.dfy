/** transaction/handler.go: PerunScriptHandler adds to the builder the inputs and outputs of each channel
    transaction. A draft says which ones; the methods add exactly a draft. */
module ScriptHandlers {
  import opened Words
  import opened Wrappers
  import opened Cells
  import opened ChannelStates
  import opened Settlement
  import opened Statuses
  import opened TransactionBuilding

  /** What is packed into the witness of the channel input; sigsPack says whether both signatures can be. */
  datatype ClosingWitness = CloseWitness(sigsPack: bool) | ForceCloseWitness

  datatype Draft = Draft(inputs: seq<OutPoint>, outputs: seq<Cell>)

  /** The deployed scripts, and the library functions that measure and encode cells. */
  datatype PerunScriptHandler = PerunScriptHandler(
    pflsMinCapacity: uint64,
    channelLock: Script,
    vcLock: Script,
    fundsLock: Script -> Script,
    minCapacity: MinCapacity,
    occupied: (Script, Option<Script>, nat) -> uint64,
    encode: ChannelStatus -> Bytes,
    encodeVc: VirtualChannelStatus -> Bytes,
    sighash: nat -> Option<Script>) {

    function ChannelCell(pcts: Script, status: ChannelStatus): Cell {
      Cell(CellOutput(occupied(channelLock, Some(pcts), |encode(status)|), channelLock, Some(pcts)), encode(status))
    }

    function VcCell(vcts: Script, status: VirtualChannelStatus): Cell {
      Cell(CellOutput(occupied(vcLock, Some(vcts), |encodeVc(status)|), vcLock, Some(vcts)), encodeVc(status))
    }

    /** UnpackOnChainParticipant restores the default lock of the public key, whatever script was recorded, or fails if
        the key cannot be parsed. */
    function OwnerScript(p: Participant): Option<Script> {
      sighash(p.pubKey)
    }

    // ---------- open, fund, abort ----------

    /** What party `part` locks in the channel: its CKBytes, and a cell for each SUDT. */
    function FundsCells(pcts: Script, s: State, part: nat): Result<seq<Cell>, HandlerError>
      requires WellFormed(s) && part < 2
    {
      match CkbBalance(s, part)
      case Err(e) => Err(e)
      case Ok(bal) =>
        if bal < pflsMinCapacity && bal != 0 then Err(BelowFundsMinimum)
        else match SudtsOf(s)
          case Err(e) => Err(e)
          case Ok(rows) => Ok([PaymentCell(fundsLock(pcts), bal)]
                              + ClaimCells(fundsLock(pcts), ClaimsOf(rows, part), 0, false))
    }

    function OpenDraft(token: OutPoint, pcts: Script, s: State): Result<Draft, HandlerError>
      requires WellFormed(s)
    {
      match FundsCells(pcts, s, 0)
      case Err(e) => Err(e)
      case Ok(funds) =>
        match MkInitialChannelStatus(s)
        case Err(e) => Err(BadState(e))
        case Ok(status) => Ok(Draft([token], funds + [ChannelCell(pcts, status)]))
    }

    function FundDraft(channel: OutPoint, pcts: Script, status: ChannelStatus, s: State): Result<Draft, HandlerError>
      requires WellFormed(s)
    {
      match FundsCells(pcts, s, 1)
      case Err(e) => Err(e)
      case Ok(funds) => Ok(Draft([channel], [ChannelCell(pcts, ToFundedChannelStatus(status))] + funds))
    }

    function AbortDraft(channel: OutPoint, assets: seq<OutPoint>, lock0: Script, s: State, channelCapacity: uint64)
      : Result<Draft, HandlerError>
      requires WellFormed(s)
    {
      match PartyShare(s, 0, channelCapacity)
      case Err(e) => Err(e)
      case Ok(share) => Ok(Draft([channel] + assets, PartyCells(minCapacity, lock0, share, false)))
    }

    // ---------- closing ----------

    /** The close witness holds the state and both signatures; a force close has nothing to pack. */
    static function WitnessError(s: State, closing: ClosingWitness): Option<HandlerError>
      requires WellFormed(s)
    {
      match closing
      case ForceCloseWitness => None
      case CloseWitness(sigsPack) =>
        match PackChannelState(s)
        case Err(e) => Some(BadState(e))
        case Ok(_) => if sigsPack then None else Some(BadSignature)
    }

    /** Close and ForceClose differ in their witnesses only. */
    function CloseDraft(channel: OutPoint, assets: seq<OutPoint>, locks: (Script, Script), s: State,
                        channelCapacity: uint64, closing: ClosingWitness): Result<Draft, HandlerError>
      requires WellFormed(s)
    {
      match Shares(s, channelCapacity)
      case Err(e) => Err(e)
      case Ok(shares) =>
        match WitnessError(s, closing)
        case Some(e) => Err(e)
        case None => Ok(Draft([channel] + assets, SettlementCells(minCapacity, locks, shares, false)))
    }

    function FirstForceCloseDraft(
      channel: OutPoint, vcCell: OutPoint, assets: seq<OutPoint>, locks: (Script, Script), s: State, vc: State,
      indexMap: seq<nat>, channelCapacity: uint64, vcts: Script, vcStatus: VirtualChannelStatus)
      : Result<Draft, HandlerError>
      requires WellFormed(s) && WellFormed(vc)
    {
      match VcShares(s, vc, indexMap, channelCapacity, (0, 0))
      case Err(e) => Err(e)
      case Ok(shares) =>
        Ok(Draft([channel, vcCell] + assets,
                 SettlementCells(minCapacity, locks, shares, true) + [VcCell(vcts, ForceClosedOnce(vcStatus))]))
    }

    /** The virtual channel's rent goes to every party whose payment script is the owner's. */
    static function Refunds(owner: Script, locks: (Script, Script), vcCapacity: uint64): (uint64, uint64) {
      (if owner == locks.0 then vcCapacity else 0, if owner == locks.1 then vcCapacity else 0)
    }

    /** And if there is none, to a cell of its own. */
    static function RefundCells(owner: Script, locks: (Script, Script), vcCapacity: uint64): seq<Cell> {
      if owner == locks.0 || owner == locks.1 then [] else [PaymentCell(owner, vcCapacity)]
    }

    function SecondForceCloseDraft(
      channel: OutPoint, vcCell: OutPoint, assets: seq<OutPoint>, minCkb: OutPoint, locks: (Script, Script), s: State,
      vc: State, indexMap: seq<nat>, channelCapacity: uint64, vcCapacity: uint64, vcStatus: VirtualChannelStatus)
      : Result<Draft, HandlerError>
      requires WellFormed(s) && WellFormed(vc)
    {
      match OwnerScript(vcStatus.owner)
      case None => Err(BadOwner)
      case Some(owner) =>
        match VcShares(s, vc, indexMap, channelCapacity, Refunds(owner, locks, vcCapacity))
        case Err(e) => Err(e)
        case Ok(shares) =>
          Ok(Draft([channel, vcCell] + assets + [minCkb],
                   SettlementCells(minCapacity, locks, shares, true) + RefundCells(owner, locks, vcCapacity)))
    }

    // ---------- disputes ----------

    function DisputeDraft(channel: OutPoint, pcts: Script, status: ChannelStatus, s: State): Result<Draft, HandlerError>
      requires WellFormed(s)
    {
      match PackChannelState(s)
      case Err(e) => Err(BadState(e))
      case Ok(p) => Ok(Draft([channel], [ChannelCell(pcts, Disputed(status, p))]))
    }

    function FirstVcDisputeDraft(channel: OutPoint, pcts: Script, vcts: Script, status: ChannelStatus, s: State,
                                 vc: State,
                                 parents: seq<ParentData>, owner: Participant): Result<Draft, HandlerError>
      requires WellFormed(s) && WellFormed(vc)
    {
      match (PackChannelState(vc), PackChannelState(s))
      case (Err(e), _) => Err(BadState(e))
      case (Ok(_), Err(e)) => Err(BadState(e))
      case (Ok(v), Ok(p)) =>
        Ok(Draft([channel], [VcCell(vcts, VirtualChannelStatus(v, parents, false, owner)),
                             ChannelCell(pcts, VcDisputed(status, p, vcts))]))
    }

    function VcProgressDraft(channel: OutPoint, vcCell: OutPoint, pcts: Script, vcts: Script, status: ChannelStatus,
                             vcStatus: VirtualChannelStatus, s: State, vc: State): Result<Draft, HandlerError>
      requires WellFormed(s) && WellFormed(vc)
    {
      match (PackChannelState(s), PackChannelState(vc))
      case (Err(e), _) => Err(BadState(e))
      case (Ok(_), Err(e)) => Err(BadState(e))
      case (Ok(p), Ok(v)) =>
        Ok(Draft([channel, vcCell], [ChannelCell(pcts, VcDisputed(status, p, vcts)),
                                     VcCell(vcts, Progressed(vcStatus, v))]))
    }

    /** Of two cells for one virtual channel the older one stays - the second one, if they are equally old; the other
        one's owner gets its capacity back. */
    function VcMergeDraft(vcCells: (OutPoint, OutPoint), vcts: Script,
                          statuses: (VirtualChannelStatus, VirtualChannelStatus),
                          capacities: (uint64, uint64), blocks: (nat, nat)): Result<Draft, HandlerError>
    {
      var (kept, removed, capacity) :=
        if blocks.0 < blocks.1 then (statuses.0, statuses.1, capacities.1) else (statuses.1, statuses.0, capacities.0);
      match OwnerScript(removed.owner)
      case None => Err(BadOwner)
      case Some(owner) => Ok(Draft([vcCells.0, vcCells.1], [VcCell(vcts, kept), PaymentCell(owner, capacity)]))
    }

    // ---------- what the drafts write ----------

    /** The channel cell of this type script, holding this status, and just what it occupies. */
    predicate HoldsStatus(c: Cell, pcts: Script, status: ChannelStatus) {
      && c.data == encode(status) && c.output.lock == channelLock && c.output.typ == Some(pcts)
      && c.output.capacity == occupied(c.output.lock, c.output.typ, |c.data|)
    }

    predicate HoldsVcStatus(c: Cell, vcts: Script, status: VirtualChannelStatus) {
      && c.data == encodeVc(status) && c.output.lock == vcLock && c.output.typ == Some(vcts)
      && c.output.capacity == occupied(c.output.lock, c.output.typ, |c.data|)
    }

    /** Cells a party funds the channel with are locked for the channel. */
    predicate Funds(cells: seq<Cell>, pcts: Script) {
      forall c :: c in cells ==> c.output.lock == fundsLock(pcts)
    }

    lemma {:induction false} FundsAreLocked(pcts: Script, s: State, part: nat)
      requires WellFormed(s) && part < 2 && FundsCells(pcts, s, part).Ok?
      ensures Funds(FundsCells(pcts, s, part).value, pcts)
    {
      hide CkbBalance, SudtsOf, ClaimCells, ClaimsOf;
      ClaimCellsLocked(fundsLock(pcts), ClaimsOf(SudtsOf(s).value, part), 0, false);
    }

    /** A party can be drafted in exactly if its CKBytes fit and are none or enough for a funds cell, and the SUDT rows
        can be read; its first cell holds those CKBytes, and one more follows for each SUDT. */
    lemma {:induction false} FundsExactly(pcts: Script, s: State, part: nat)
      requires WellFormed(s) && Distinct(s.assets) && part < 2
      ensures FundsCells(pcts, s, part).Ok? <==>
              && CkbFits(s, part) && SudtsOf(s).Ok?
              && (CkbBalance(s, part).value == 0 || CkbBalance(s, part).value >= pflsMinCapacity)
      ensures FundsCells(pcts, s, part).Ok? ==>
                var cells := FundsCells(pcts, s, part).value;
                |cells| == 1 + |SudtsOf(s).value| && cells[0].output.capacity == CkbBalance(s, part).value
    {
      hide SudtsOf, ClaimCells, ClaimsOf;
      CkbBalanceExactly(s, part);
    }

    /** A close can be drafted exactly if there are shares and, unless it is a forced one, state and signatures can be
        packed into the witness. */
    lemma {:induction false} ClosesExactly(channel: OutPoint, assets: seq<OutPoint>, locks: (Script, Script), s: State,
                                           channelCapacity: uint64, sigsPack: bool)
      requires WellFormed(s)
      ensures CloseDraft(channel, assets, locks, s, channelCapacity, ForceCloseWitness).Ok? <==>
              Shares(s, channelCapacity).Ok?
      ensures CloseDraft(channel, assets, locks, s, channelCapacity, CloseWitness(sigsPack)).Ok? <==>
              Shares(s, channelCapacity).Ok? && PackChannelState(s).Ok? && sigsPack
    {
      hide Shares, PackChannelState;
    }

    /** Opening spends the token and writes the packed state, funded only if party 1 owes nothing. */
    lemma {:induction false} OpenWrites(token: OutPoint, pcts: Script, s: State, d: Draft)
      requires WellFormed(s) && OpenDraft(token, pcts, s) == Ok(d)
      ensures d.inputs == [token] && d.outputs != [] && PackChannelState(s).Ok?
      ensures Funds(d.outputs[..|d.outputs| - 1], pcts)
      ensures HoldsStatus(d.outputs[|d.outputs| - 1], pcts,
                          ChannelStatus(PackChannelState(s).value,
                                        s.assets == [CKBytes] && s.balances[0].bal1 == 0, false, false, ZERO_HASH))
    {
      hide FundsCells, PackChannelState;
      FundsAreLocked(pcts, s, 0);
      assert d.outputs[..|d.outputs| - 1] == FundsCells(pcts, s, 0).value;
    }

    /** Funding spends the channel cell and writes it again, now funded and otherwise the same. */
    lemma {:induction false} FundWrites(channel: OutPoint, pcts: Script, status: ChannelStatus, s: State, d: Draft)
      requires WellFormed(s) && FundDraft(channel, pcts, status, s) == Ok(d)
      ensures d.inputs == [channel] && d.outputs != [] && Funds(d.outputs[1..], pcts)
      ensures HoldsStatus(d.outputs[0], pcts,
                          ChannelStatus(status.state, true, status.disputed, status.vcDisputed, status.vctsHash))
    {
      hide FundsCells;
      FundsAreLocked(pcts, s, 1);
      assert d.outputs[1..] == FundsCells(pcts, s, 1).value;
    }

    lemma {:induction false} DisputeWrites(channel: OutPoint, pcts: Script, status: ChannelStatus, s: State, d: Draft)
      requires WellFormed(s) && DisputeDraft(channel, pcts, status, s) == Ok(d)
      ensures d.inputs == [channel] && |d.outputs| == 1 && PackChannelState(s).Ok?
      ensures HoldsStatus(d.outputs[0], pcts,
                          ChannelStatus(PackChannelState(s).value, status.funded, true, status.vcDisputed,
                                        status.vctsHash))
    {
      hide PackChannelState;
    }

    lemma {:induction false} FirstVcDisputeWrites(
      channel: OutPoint, pcts: Script, vcts: Script, status: ChannelStatus, s: State, vc: State,
      parents: seq<ParentData>, owner: Participant, d: Draft)
      requires WellFormed(s) && WellFormed(vc)
      requires FirstVcDisputeDraft(channel, pcts, vcts, status, s, vc, parents, owner) == Ok(d)
      ensures d.inputs == [channel] && |d.outputs| == 2 && PackChannelState(s).Ok? && PackChannelState(vc).Ok?
      ensures HoldsVcStatus(d.outputs[0], vcts,
                            VirtualChannelStatus(PackChannelState(vc).value, parents, false, owner))
      ensures HoldsStatus(d.outputs[1], pcts,
                          ChannelStatus(PackChannelState(s).value, status.funded, true, true, vcts))
    {
      hide PackChannelState;
    }

    lemma {:induction false} VcProgressWrites(
      channel: OutPoint, vcCell: OutPoint, pcts: Script, vcts: Script, status: ChannelStatus,
      vcStatus: VirtualChannelStatus, s: State, vc: State, d: Draft)
      requires WellFormed(s) && WellFormed(vc)
      requires VcProgressDraft(channel, vcCell, pcts, vcts, status, vcStatus, s, vc) == Ok(d)
      ensures d.inputs == [channel, vcCell] && |d.outputs| == 2 && PackChannelState(s).Ok? && PackChannelState(vc).Ok?
      ensures HoldsStatus(d.outputs[0], pcts,
                          ChannelStatus(PackChannelState(s).value, status.funded, true, true, vcts))
      ensures HoldsVcStatus(d.outputs[1], vcts,
                            VirtualChannelStatus(PackChannelState(vc).value, vcStatus.parents, vcStatus.firstForceClose,
                                                 vcStatus.owner))
    {
      hide PackChannelState;
    }

    /** A merge spends both cells and writes the older one's status - the second one's, if they are equally old. */
    lemma {:induction false} VcMergeWrites(
      vcCells: (OutPoint, OutPoint), vcts: Script, statuses: (VirtualChannelStatus, VirtualChannelStatus),
      capacities: (uint64, uint64), blocks: (nat, nat), d: Draft)
      requires VcMergeDraft(vcCells, vcts, statuses, capacities, blocks) == Ok(d)
      ensures d.inputs == [vcCells.0, vcCells.1] && |d.outputs| == 2
      ensures blocks.0 < blocks.1 ==> HoldsVcStatus(d.outputs[0], vcts, statuses.0)
      ensures blocks.0 >= blocks.1 ==> HoldsVcStatus(d.outputs[0], vcts, statuses.1)
    {}

    /** A first force close spends channel, virtual channel and funds cells and writes the virtual channel's status
        again, flagged and otherwise the same. */
    lemma {:induction false} FirstForceCloseWrites(
      channel: OutPoint, vcCell: OutPoint, assets: seq<OutPoint>, locks: (Script, Script), s: State, vc: State,
      indexMap: seq<nat>, channelCapacity: uint64, vcts: Script, vcStatus: VirtualChannelStatus, d: Draft)
      requires WellFormed(s) && WellFormed(vc)
      requires FirstForceCloseDraft(channel, vcCell, assets, locks, s, vc, indexMap, channelCapacity, vcts, vcStatus)
               == Ok(d)
      ensures d.inputs == [channel, vcCell] + assets && d.outputs != []
      ensures HoldsVcStatus(d.outputs[|d.outputs| - 1], vcts,
                            VirtualChannelStatus(vcStatus.vcState, vcStatus.parents, true, vcStatus.owner))
    {
      hide VcShares, SettlementCells;
    }

    // ---------- the builder ----------

    static function ErrorOf<T>(r: Result<T, HandlerError>): Option<HandlerError> {
      match r
      case Ok(_) => None
      case Err(e) => Some(e)
    }

    method AddAssetsToOutputs(b: PerunTransactionBuilder, s: State, part: nat, lock: Script, extra: uint64)
        returns (error: Option<HandlerError>)
      requires b.Valid() && WellFormed(s) && part < 2
      modifies b`outputs, b`outputsData
      ensures b.Valid()
      ensures error == ErrorOf(SudtsOf(s))
      ensures error == None ==>
                b.OutCells() == old(b.OutCells()) + ClaimCells(lock, ClaimsOf(SudtsOf(s).value, part), extra, false)
    {
      var slice := GetSUDTBalancesSlice(s);
      if slice.Err? {
        return Some(BadState(slice.error));
      }
      hide SudtRows, PerunTransactionBuilder.Valid;
      AddAssetCells(b, slice.value, part, lock, extra);
      error := None;
    }

    /** One cell per SUDT; the extra CKBytes are spent on the first. */
    static method AddAssetCells(b: PerunTransactionBuilder, rows: seq<SudtBalances>, part: nat, lock: Script,
                                extra: uint64)
      requires b.Valid() && part < 2
      modifies b`outputs, b`outputsData
      ensures b.Valid() && b.OutCells() == old(b.OutCells()) + ClaimCells(lock, ClaimsOf(rows, part), extra, false)
    {
      hide *;
      InStep(b);
      NoAssetCells(part, lock, extra);
      ghost var start := b.OutCells();
      ghost var added: seq<Cell> := [];
      assert rows[..0] == [] && start + added == start;
      var additional := extra;
      for i := 0 to |rows|
        invariant b.Valid() && |b.outputs| == |b.outputsData|
        invariant additional == if i == 0 then extra else 0
        invariant added == ClaimCells(lock, ClaimsOf(rows[..i], part), extra, false)
        invariant b.OutCells() == start + added
      {
        AssetCellNext(rows, i, part, lock, extra);
        var cell := ClaimCell(lock, Claim(rows[i].typeScript, rows[i].maxCapacity, rows[i].Of(part)), additional,
                              false);
        additional := 0;
        AddCell(b, cell);
        assert start + added + [cell] == start + (added + [cell]);
        added := added + [cell];
      }
      assert rows[..|rows|] == rows;
    }

    static lemma {:induction false} InStep(b: PerunTransactionBuilder)
      requires b.Valid()
      ensures |b.outputs| == |b.outputsData|
    {}

    static lemma {:induction false} NoAssetCells(part: nat, lock: Script, extra: uint64)
      requires part < 2
      ensures ClaimCells(lock, ClaimsOf([], part), extra, false) == []
    {}

    static lemma {:induction false} AssetCellNext(rows: seq<SudtBalances>, i: nat, part: nat, lock: Script,
                                                  extra: uint64)
      requires i < |rows| && part < 2
      ensures ClaimCells(lock, ClaimsOf(rows[..i + 1], part), extra, false) ==
              ClaimCells(lock, ClaimsOf(rows[..i], part), extra, false) +
              [ClaimCell(lock, Claim(rows[i].typeScript, rows[i].maxCapacity, rows[i].Of(part)),
                         if i == 0 then extra else 0, false)]
    {
      assert rows[..i + 1][..i] == rows[..i];
      assert ClaimsOf(rows[..i + 1], part)[..i] == ClaimsOf(rows[..i], part);
    }

    static method AddCell(b: PerunTransactionBuilder, cell: Cell)
      requires b.Valid()
      modifies b`outputs, b`outputsData
      ensures b.Valid() && |b.outputs| == |b.outputsData| && b.OutCells() == old(b.OutCells()) + [cell]
    {
      OutputCellsAppend(b.outputs, b.outputsData, cell.output, cell.data);
      b.AddOutput(cell.output, cell.data);
    }

    static lemma {:induction false} NoMergedCells(virtual: seq<SudtBalances>, part: nat, mapped: nat, lock: Script,
                                                  extra: uint64)
      requires part < 2 && mapped < 2
      ensures ClaimCells(lock, MergedClaims([], virtual, part, mapped), extra, true) == []
    {}

    static lemma {:induction false} MergedCellNext(
      parent: seq<SudtBalances>, virtual: seq<SudtBalances>, i: nat, part: nat, mapped: nat, lock: Script,
      extra: uint64)
      
      requires i < |parent| && part < 2 && mapped < 2
      ensures var total := Add128(parent[i].Of(mapped), if i < |virtual| then virtual[i].Of(part) else 0);
              ClaimCells(lock, MergedClaims(parent[..i + 1], virtual, part, mapped), extra, true) ==
              ClaimCells(lock, MergedClaims(parent[..i], virtual, part, mapped), extra, true) +
              [ClaimCell(lock, Claim(parent[i].typeScript, parent[i].maxCapacity, total),
                         if i == 0 then extra else 0, true)]
    {
      assert parent[..i + 1][..i] == parent[..i];
      assert MergedClaims(parent[..i + 1], virtual, part, mapped)[..i]
             == MergedClaims(parent[..i], virtual, part, mapped);
    }

    static lemma {:induction false} ZeroClaim(lock: Script, c: Claim, extra: uint64)
      ensures ClaimCell(lock, c, extra, true) ==
              if c.amount == 0 then PaymentCell(lock, Add64(c.maxCapacity, extra)) else ClaimCell(lock, c, extra, false)
    {}

    /** The merging loop: parent balances by mapped index, virtual balances by party index. */
    static method AddMergedCells(b: PerunTransactionBuilder, parent: seq<SudtBalances>, virtual: seq<SudtBalances>,
                                 part: nat, mapped: nat,
                                 lock: Script, extra: uint64) returns (error: Option<HandlerError>)
      requires b.Valid() && part < 2
      modifies b`outputs, b`outputsData
      ensures b.Valid()
      ensures error == if parent == [] || mapped < 2 then None else Some(IndexOutOfRange)
      ensures error == None && parent == [] ==> b.OutCells() == old(b.OutCells())
      ensures error == None && mapped < 2 ==>
                b.OutCells() == old(b.OutCells())
                  + ClaimCells(lock, MergedClaims(parent, virtual, part, mapped), extra, true)
    {
      hide *;
      InStep(b);
      ghost var start := b.OutCells();
      ghost var added: seq<Cell> := [];
      assert parent[..0] == [] && start + added == start;
      if mapped < 2 {
        NoMergedCells(virtual, part, mapped, lock, extra);
      }
      var additional := extra;
      for i := 0 to |parent|
        invariant b.Valid() && |b.outputs| == |b.outputsData|
        invariant additional == if i == 0 then extra else 0
        invariant i > 0 ==> mapped < 2
        invariant mapped < 2 ==>
                    added == ClaimCells(lock, MergedClaims(parent[..i], virtual, part, mapped), extra, true)
        invariant i == 0 ==> added == []
        invariant b.OutCells() == start + added
      {
        if mapped >= 2 {
          return Some(IndexOutOfRange);
        }
        MergedCellNext(parent, virtual, i, part, mapped, lock, extra);
        var total := Add128(parent[i].Of(mapped), if i < |virtual| then virtual[i].Of(part) else 0);
        var claim := Claim(parent[i].typeScript, parent[i].maxCapacity, total);
        ZeroClaim(lock, claim, additional);
        var cell := if total == 0 then PaymentCell(lock, Add64(claim.maxCapacity, additional))
                    else ClaimCell(lock, claim, additional, false);
        additional := 0;
        AddCell(b, cell);
        assert start + added + [cell] == start + (added + [cell]);
        added := added + [cell];
      }
      assert parent[..|parent|] == parent;
      error := None;
    }

    method AddAssetsToOutputsWithVirtualChannel(
      b: PerunTransactionBuilder, s: State, vc: State, part: nat, lock: Script, extra: uint64, indexMap: seq<nat>)
      returns (error: Option<HandlerError>)
      requires b.Valid() && WellFormed(s) && WellFormed(vc) && part < 2
      modifies b`outputs, b`outputsData
      ensures b.Valid()
      ensures error == ErrorOf(MergeSudts(s, vc, part, indexMap))
      ensures error == None ==>
                b.OutCells() == old(b.OutCells())
                  + ClaimCells(lock, MergeSudts(s, vc, part, indexMap).value, extra, true)
    {
      hide SudtRows, PerunTransactionBuilder.Valid, OutputCells, AmountData, MergedClaims;
      var parent := GetSUDTBalancesSlice(s);
      if parent.Err? {
        return Some(BadState(parent.error));
      }
      var virtual := GetSUDTBalancesSlice(vc);
      if virtual.Err? {
        return Some(BadState(virtual.error));
      }
      if part >= |indexMap| {
        return Some(IndexOutOfRange);
      }
      error := AddMergedCells(b, parent.value, virtual.value, part, indexMap[part], lock, extra);
    }

    // ---------- paying the parties ----------

    /** A party's CKBytes: a cell of their own, or what is left for the first SUDT cell to carry. */
    method PayBalance(b: PerunTransactionBuilder, lock: Script, balance: uint64) returns (additional: uint64)
      requires b.Valid()
      modifies b`outputs, b`outputsData
      ensures b.Valid()
      ensures balance >= minCapacity(lock) ==>
              additional == 0 && b.OutCells() == old(b.OutCells()) + [PaymentCell(lock, balance)]
      ensures balance < minCapacity(lock) ==> additional == balance && b.OutCells() == old(b.OutCells())
    {
      hide PerunTransactionBuilder.Valid, OutputCells;
      additional := 0;
      if balance >= minCapacity(lock) {
        AddCell(b, PaymentCell(lock, balance));
      } else {
        additional := balance;
      }
    }

    method PayParty(b: PerunTransactionBuilder, s: State, part: nat, lock: Script, channelCapacity: uint64)
        returns (error: Option<HandlerError>)
      requires b.Valid() && WellFormed(s) && part < 2
      modifies b`outputs, b`outputsData
      ensures b.Valid()
      ensures error == ErrorOf(PartyShare(s, part, channelCapacity))
      ensures error == None ==>
                b.OutCells() == old(b.OutCells())
                  + PartyCells(minCapacity, lock, PartyShare(s, part, channelCapacity).value, false)
    {
      hide PerunTransactionBuilder.Valid, OutputCells, SudtsOf, AmountData, ClaimCells, ClaimsOf, AssetIndex;
      var bal := CkbBalance(s, part);
      if bal.Err? {
        return Some(bal.error);
      }
      var balance := bal.value;
      if part == 0 {
        balance := Add64(balance, channelCapacity);
      }
      var additional := PayBalance(b, lock, balance);
      error := AddAssetsToOutputs(b, s, part, lock, additional);
    }

    method PayPartyWithVC(b: PerunTransactionBuilder, s: State, vc: State, part: nat, lock: Script, indexMap: seq<nat>,
                          channelCapacity: uint64, refund: uint64) returns (error: Option<HandlerError>)
      requires b.Valid() && WellFormed(s) && WellFormed(vc) && part < 2
      modifies b`outputs, b`outputsData
      ensures b.Valid()
      ensures error == ErrorOf(VcPartyShare(s, vc, part, indexMap, channelCapacity, refund))
      ensures error == None ==>
                b.OutCells() == old(b.OutCells()) +
                                PartyCells(minCapacity, lock,
                                           VcPartyShare(s, vc, part, indexMap, channelCapacity, refund).value, true)
    {
      hide PerunTransactionBuilder.Valid, OutputCells, SudtsOf, AmountData, ClaimCells, MergeSudts, AssetIndex,
           CkbBalance, VcCkbBalance;
      var bal := CkbBalance(s, part);
      if bal.Err? {
        return Some(bal.error);
      }
      var vcBal := VcCkbBalance(vc, part, indexMap);
      if vcBal.Err? {
        return Some(vcBal.error);
      }
      var balance := Add64(bal.value, vcBal.value);
      if part == 0 {
        balance := Add64(balance, channelCapacity);
      }
      balance := Add64(balance, refund);
      var additional := PayBalance(b, lock, balance);
      error := AddAssetsToOutputsWithVirtualChannel(b, s, vc, part, lock, additional, indexMap);
    }

    // ---------- the transactions ----------

    /** The builder has been given exactly the draft, and one witness per input. */
    static twostate predicate Drafted(b: PerunTransactionBuilder, d: Draft)
      requires |b.outputs| == |b.outputsData| && old(|b.outputs| == |b.outputsData|)
      reads b
    {
      && b.inputs == old(b.inputs) + d.inputs
      && |b.witnesses| == old(|b.witnesses|) + |d.inputs|
      && b.OutCells() == old(b.OutCells()) + d.outputs
    }

    static method AddInputs(b: PerunTransactionBuilder, ops: seq<OutPoint>)
      requires b.Valid()
      modifies b`inputs, b`witnesses
      ensures b.Valid() && b.inputs == old(b.inputs) + ops && |b.witnesses| == old(|b.witnesses|) + |ops|
    {
      hide *;
      for i := 0 to |ops|
        invariant b.Valid() && b.inputs == old(b.inputs) + ops[..i] && |b.witnesses| == old(|b.witnesses|) + i
      {
        assert old(b.inputs) + ops[..i] + [ops[i]] == old(b.inputs) + ops[..i + 1];
        var _ := b.AddInput(ops[i]);
      }
      assert ops[..|ops|] == ops;
    }

    /** The loop over the participants in buildCloseTransaction and buildForceCloseTransaction. */
    method PayParticipants(b: PerunTransactionBuilder, s: State, locks: seq<Script>, channelCapacity: uint64)
        returns (error: Option<HandlerError>)
      requires b.Valid() && WellFormed(s) && |locks| == 2
      modifies b`outputs, b`outputsData
      ensures b.Valid()
      ensures error == ErrorOf(Shares(s, channelCapacity))
      ensures error == None ==>
                b.OutCells() == old(b.OutCells()) +
                                SettlementCells(minCapacity, (locks[0], locks[1]), Shares(s, channelCapacity).value,
                                                false)
    {
      hide PerunTransactionBuilder.Valid, OutputCells, PartyShare, PartyCells;
      InStep(b);
      ghost var start := b.OutCells();
      for i := 0 to |locks|
        invariant b.Valid() && |b.outputs| == |b.outputsData|
        invariant forall j :: 0 <= j < i ==> PartyShare(s, j, channelCapacity).Ok?
        invariant i == 0 ==> b.OutCells() == start
        invariant i == 1 ==>
                    b.OutCells() ==
                    start + PartyCells(minCapacity, locks[0], PartyShare(s, 0, channelCapacity).value, false)
        invariant i == 2 ==>
                    b.OutCells() ==
                    start + PartyCells(minCapacity, locks[0], PartyShare(s, 0, channelCapacity).value, false) +
                    PartyCells(minCapacity, locks[1], PartyShare(s, 1, channelCapacity).value, false)
      {
        error := PayParty(b, s, i, locks[i], channelCapacity);
        InStep(b);
        if error.Some? {
          return;
        }
      }
      error := None;
    }

    method BuildClose(b: PerunTransactionBuilder, channel: OutPoint, assets: seq<OutPoint>, locks: seq<Script>,
                      s: State, channelCapacity: uint64, closing: ClosingWitness)
        returns (error: Option<HandlerError>)
      requires b.Valid() && WellFormed(s) && |locks| == 2
      modifies b`inputs, b`witnesses, b`outputs, b`outputsData
      ensures b.Valid() && |b.outputs| == |b.outputsData| && old(|b.outputs| == |b.outputsData|)
      ensures var d := CloseDraft(channel, assets, (locks[0], locks[1]), s, channelCapacity, closing);
              error == ErrorOf(d) && (error == None ==> Drafted(b, d.value))
    {
      hide PerunTransactionBuilder.Valid, OutputCells, Shares, SettlementCells, PackChannelState;
      InStep(b);
      var _ := b.AddInput(channel);
      AddInputs(b, assets);
      error := PayParticipants(b, s, locks, channelCapacity);
      InStep(b);
      if error.Some? {
        return;
      }
      match closing {
        case ForceCloseWitness =>
        case CloseWitness(sigsPack) =>
          var packed := PackChannelState(s);
          if packed.Err? {
            return Some(BadState(packed.error));
          }
          if !sigsPack {
            return Some(BadSignature);
          }
      }
    }

    method BuildAbort(b: PerunTransactionBuilder, channel: OutPoint, assets: seq<OutPoint>, lock0: Script, s: State,
                      channelCapacity: uint64)
      returns (error: Option<HandlerError>)
      requires b.Valid() && WellFormed(s)
      modifies b`inputs, b`witnesses, b`outputs, b`outputsData
      ensures b.Valid() && |b.outputs| == |b.outputsData| && old(|b.outputs| == |b.outputsData|)
      ensures error == ErrorOf(AbortDraft(channel, assets, lock0, s, channelCapacity))
      ensures error == None ==> Drafted(b, AbortDraft(channel, assets, lock0, s, channelCapacity).value)
    {
      hide PerunTransactionBuilder.Valid, OutputCells, PartyShare, PartyCells;
      InStep(b);
      var _ := b.AddInput(channel);
      AddInputs(b, assets);
      error := PayParty(b, s, 0, lock0, channelCapacity);
      InStep(b);
    }

    /** A party's funds: refused if its CKBytes are too few for a cell, but added if there are none. */
    method AddFunds(b: PerunTransactionBuilder, pcts: Script, s: State, part: nat) returns (error: Option<HandlerError>)
      requires b.Valid() && WellFormed(s) && part < 2
      modifies b`outputs, b`outputsData
      ensures b.Valid()
      ensures error == ErrorOf(FundsCells(pcts, s, part))
      ensures error == None ==> b.OutCells() == old(b.OutCells()) + FundsCells(pcts, s, part).value
    {
      hide PerunTransactionBuilder.Valid, OutputCells, SudtsOf, AmountData, ClaimCells, ClaimsOf, CkbBalance;
      var lock := fundsLock(pcts);
      var bal := CkbBalance(s, part);
      if bal.Err? {
        return Some(bal.error);
      }
      if bal.value >= pflsMinCapacity || bal.value == 0 {
        AddCell(b, PaymentCell(lock, bal.value));
      } else {
        return Some(BelowFundsMinimum);
      }
      error := AddAssetsToOutputs(b, s, part, lock, 0);
    }

    method BuildOpen(b: PerunTransactionBuilder, token: OutPoint, pcts: Script, s: State)
        returns (error: Option<HandlerError>)
      requires b.Valid() && WellFormed(s)
      modifies b`inputs, b`witnesses, b`outputs, b`outputsData
      ensures b.Valid() && |b.outputs| == |b.outputsData| && old(|b.outputs| == |b.outputsData|)
      ensures error == ErrorOf(OpenDraft(token, pcts, s))
      ensures error == None ==> Drafted(b, OpenDraft(token, pcts, s).value)
    {
      hide PerunTransactionBuilder.Valid, OutputCells, FundsCells, MkInitialChannelStatus;
      InStep(b);
      var _ := b.AddInput(token);
      error := AddFunds(b, pcts, s, 0);
      InStep(b);
      if error.Some? {
        return;
      }
      var status := MkInitialChannelStatus(s);
      if status.Err? {
        return Some(BadState(status.error));
      }
      AddCell(b, ChannelCell(pcts, status.value));
    }

    method BuildFund(b: PerunTransactionBuilder, channel: OutPoint, pcts: Script, status: ChannelStatus, s: State)
      returns (error: Option<HandlerError>)
      requires b.Valid() && WellFormed(s)
      modifies b`inputs, b`witnesses, b`outputs, b`outputsData
      ensures b.Valid() && |b.outputs| == |b.outputsData| && old(|b.outputs| == |b.outputsData|)
      ensures error == ErrorOf(FundDraft(channel, pcts, status, s))
      ensures error == None ==> Drafted(b, FundDraft(channel, pcts, status, s).value)
    {
      hide PerunTransactionBuilder.Valid, OutputCells, FundsCells;
      InStep(b);
      var _ := b.AddInput(channel);
      AddCell(b, ChannelCell(pcts, ToFundedChannelStatus(status)));
      error := AddFunds(b, pcts, s, 1);
      InStep(b);
    }

    method BuildDispute(b: PerunTransactionBuilder, channel: OutPoint, pcts: Script, di: DisputeInfo)
        returns (error: Option<HandlerError>)
      requires b.Valid() && WellFormed(di.newState)
      modifies b`inputs, b`witnesses, b`outputs, b`outputsData, di
      ensures b.Valid() && |b.outputs| == |b.outputsData| && old(|b.outputs| == |b.outputsData|)
      ensures error == ErrorOf(DisputeDraft(channel, pcts, old(di.status), di.newState))
      ensures error == None ==> Drafted(b, DisputeDraft(channel, pcts, old(di.status), di.newState).value)
    {
      hide PerunTransactionBuilder.Valid, OutputCells, PackChannelState;
      InStep(b);
      var _ := b.AddInput(channel);
      var failed := di.Update();
      if failed.Some? {
        return Some(BadState(PackChannelState(di.newState).error));
      }
      AddCell(b, ChannelCell(pcts, di.status));
      error := None;
    }

    method BuildFirstVCDispute(b: PerunTransactionBuilder, channel: OutPoint, pcts: Script, vcts: Script,
                               di: VcDisputeInfo)
      returns (error: Option<HandlerError>)
      requires b.Valid() && WellFormed(di.vcState) && WellFormed(di.parentState)
      modifies b`inputs, b`witnesses, b`outputs, b`outputsData, di
      ensures b.Valid() && |b.outputs| == |b.outputsData| && old(|b.outputs| == |b.outputsData|)
      ensures error == ErrorOf(FirstVcDisputeDraft(channel, pcts, vcts, old(di.lcStatus), di.parentState, di.vcState,
                                                   di.parents, di.owner))
      ensures error == None ==>
                Drafted(b, FirstVcDisputeDraft(channel, pcts, vcts, old(di.lcStatus), di.parentState, di.vcState,
                                               di.parents, di.owner).value)
    {
      hide PerunTransactionBuilder.Valid, OutputCells, PackChannelState;
      InStep(b);
      var _ := b.AddInput(channel);
      var vcStatus := di.MkInitialVirtualChannelStatus(vcts);
      if vcStatus.Err? {
        return Some(BadState(PackChannelState(di.vcState).error));
      }
      var failed := di.Update(vcts);
      if failed.Some? {
        return Some(BadState(PackChannelState(di.parentState).error));
      }
      AddCell(b, VcCell(vcts, vcStatus.value));
      AddCell(b, ChannelCell(pcts, di.lcStatus));
      error := None;
    }

    method BuildVCDisputeProgress(b: PerunTransactionBuilder, channel: OutPoint, vcCell: OutPoint, pcts: Script,
                                  di: VcDisputeInfo)
      returns (error: Option<HandlerError>)
      requires b.Valid() && WellFormed(di.vcState) && WellFormed(di.parentState) && di.vcts.Some? && di.vcStatus.Some?
      modifies b`inputs, b`witnesses, b`outputs, b`outputsData, di
      ensures b.Valid() && |b.outputs| == |b.outputsData| && old(|b.outputs| == |b.outputsData|)
      ensures var d := VcProgressDraft(channel, vcCell, pcts, old(di.vcts).value, old(di.lcStatus),
                                       old(di.vcStatus).value, di.parentState, di.vcState);
              error == ErrorOf(d) && (error == None ==> Drafted(b, d.value))
    {
      hide PerunTransactionBuilder.Valid, OutputCells, PackChannelState;
      InStep(b);
      var _ := b.AddInput(channel);
      var _ := b.AddInput(vcCell);
      var failed := di.Update(di.vcts.value);
      if failed.Some? {
        return Some(BadState(PackChannelState(di.parentState).error));
      }
      AddCell(b, ChannelCell(pcts, di.lcStatus));
      failed := di.UpdateVCStatus();
      if failed.Some? {
        return Some(BadState(PackChannelState(di.vcState).error));
      }
      AddCell(b, VcCell(di.vcts.value, di.vcStatus.value));
      error := None;
    }

    method BuildVCMerge(b: PerunTransactionBuilder, vcCells: (OutPoint, OutPoint), vcts: Script,
                        statuses: (VirtualChannelStatus, VirtualChannelStatus), capacities: (uint64, uint64),
                        blocks: (nat, nat))
      returns (error: Option<HandlerError>)
      requires b.Valid()
      modifies b`inputs, b`witnesses, b`outputs, b`outputsData
      ensures b.Valid() && |b.outputs| == |b.outputsData| && old(|b.outputs| == |b.outputsData|)
      ensures var d := VcMergeDraft(vcCells, vcts, statuses, capacities, blocks);
              error == ErrorOf(d) && (error == None ==> Drafted(b, d.value))
    {
      hide PerunTransactionBuilder.Valid, OutputCells;
      InStep(b);
      var _ := b.AddInput(vcCells.0);
      var _ := b.AddInput(vcCells.1);
      var status, occupiedCapacity := statuses.0, capacities.0;
      if blocks.0 < blocks.1 {
        AddCell(b, VcCell(vcts, statuses.0));
        status, occupiedCapacity := statuses.1, capacities.1;
      } else {
        AddCell(b, VcCell(vcts, statuses.1));
      }
      var owner := OwnerScript(status.owner);
      if owner == None {
        return Some(BadOwner);
      }
      AddCell(b, PaymentCell(owner.value, occupiedCapacity));
      error := None;
    }

    // ---------- force close with a virtual channel ----------

    /** The loop over the participants; refundTo is the virtual channel's owner in a second force close. */
    method PayParticipantsWithVC(b: PerunTransactionBuilder, s: State, vc: State, locks: seq<Script>,
                                 indexMap: seq<nat>,
                                 channelCapacity: uint64, refundTo: Option<Script>, vcCapacity: uint64)
      returns (error: Option<HandlerError>, returned: bool)
      requires b.Valid() && WellFormed(s) && WellFormed(vc) && |locks| == 2
      modifies b`outputs, b`outputsData
      ensures b.Valid()
      ensures var refunds := (if refundTo == Some(locks[0]) then vcCapacity else 0,
                              if refundTo == Some(locks[1]) then vcCapacity else 0);
              && error == ErrorOf(VcShares(s, vc, indexMap, channelCapacity, refunds))
              && (error == None ==>
                    b.OutCells() == old(b.OutCells()) +
                                    SettlementCells(minCapacity, (locks[0], locks[1]),
                                                    VcShares(s, vc, indexMap, channelCapacity, refunds).value, true))
      ensures error == None ==> returned == (refundTo == Some(locks[0]) || refundTo == Some(locks[1]))
    {
      hide PerunTransactionBuilder.Valid, OutputCells, VcPartyShare, PartyCells;
      InStep(b);
      ghost var start := b.OutCells();
      ghost var r0, r1 := if refundTo == Some(locks[0]) then vcCapacity else 0,
          if refundTo == Some(locks[1]) then vcCapacity else 0;
      returned := false;
      for i := 0 to |locks|
        invariant b.Valid() && |b.outputs| == |b.outputsData|
        invariant i > 0 ==> VcPartyShare(s, vc, 0, indexMap, channelCapacity, r0).Ok?
        invariant i > 1 ==> VcPartyShare(s, vc, 1, indexMap, channelCapacity, r1).Ok?
        invariant i == 0 ==> b.OutCells() == start
        invariant i == 1 ==>
                    b.OutCells() ==
                    start + PartyCells(minCapacity, locks[0],
                                       VcPartyShare(s, vc, 0, indexMap, channelCapacity, r0).value, true)
        invariant i == 2 ==>
                    b.OutCells() ==
                    start + PartyCells(minCapacity, locks[0],
                                       VcPartyShare(s, vc, 0, indexMap, channelCapacity, r0).value, true) +
                    PartyCells(minCapacity, locks[1],
                               VcPartyShare(s, vc, 1, indexMap, channelCapacity, r1).value, true)
        invariant returned == ((i > 0 && refundTo == Some(locks[0])) || (i > 1 && refundTo == Some(locks[1])))
      {
        var refund: uint64 := 0;
        if refundTo == Some(locks[i]) {
          refund, returned := vcCapacity, true;
        }
        error := PayPartyWithVC(b, s, vc, i, locks[i], indexMap, channelCapacity, refund);
        InStep(b);
        if error.Some? {
          return;
        }
      }
      error := None;
    }

    method BuildFirstForceCloseWithVC(
      b: PerunTransactionBuilder, channel: OutPoint, vcCell: OutPoint, assets: seq<OutPoint>, locks: seq<Script>,
      s: State, vc: State, indexMap: seq<nat>, channelCapacity: uint64, vcts: Script, info: ForceCloseWithVCInfo)
      returns (error: Option<HandlerError>)
      requires b.Valid() && WellFormed(s) && WellFormed(vc) && |locks| == 2
      modifies b`inputs, b`witnesses, b`outputs, b`outputsData, info
      ensures b.Valid() && |b.outputs| == |b.outputsData| && old(|b.outputs| == |b.outputsData|)
      ensures var d := FirstForceCloseDraft(channel, vcCell, assets, (locks[0], locks[1]), s, vc, indexMap,
                                            channelCapacity, vcts, old(info.vcStatus));
              error == ErrorOf(d) && (error == None ==> Drafted(b, d.value))
    {
      hide PerunTransactionBuilder.Valid, OutputCells, VcShares, SettlementCells;
      InStep(b);
      var _ := b.AddInput(channel);
      var _ := b.AddInput(vcCell);
      AddInputs(b, assets);
      var returned;
      error, returned := PayParticipantsWithVC(b, s, vc, locks, indexMap, channelCapacity, None, 0);
      InStep(b);
      if error.Some? {
        return;
      }
      info.UpdateFirstForceClose();
      AddCell(b, VcCell(vcts, info.vcStatus));
    }

    method BuildSecondForceCloseWithVC(
      b: PerunTransactionBuilder, channel: OutPoint, vcCell: OutPoint, assets: seq<OutPoint>, minCkb: OutPoint,
      locks: seq<Script>, s: State, vc: State, indexMap: seq<nat>, channelCapacity: uint64, vcCapacity: uint64,
      vcStatus: VirtualChannelStatus)
      returns (error: Option<HandlerError>)
      requires b.Valid() && WellFormed(s) && WellFormed(vc) && |locks| == 2
      modifies b`inputs, b`witnesses, b`outputs, b`outputsData
      ensures b.Valid() && |b.outputs| == |b.outputsData| && old(|b.outputs| == |b.outputsData|)
      ensures var d := SecondForceCloseDraft(channel, vcCell, assets, minCkb, (locks[0], locks[1]), s, vc, indexMap,
                                             channelCapacity, vcCapacity, vcStatus);
              error == ErrorOf(d) && (error == None ==> Drafted(b, d.value))
    {
      hide PerunTransactionBuilder.Valid, OutputCells, VcShares, SettlementCells;
      InStep(b);
      var _ := b.AddInput(channel);
      var _ := b.AddInput(vcCell);
      AddInputs(b, assets);
      var _ := b.AddInput(minCkb);
      var owner := OwnerScript(vcStatus.owner);
      if owner == None {
        return Some(BadOwner);
      }
      var returned;
      error, returned := PayParticipantsWithVC(b, s, vc, locks, indexMap, channelCapacity, owner, vcCapacity);
      InStep(b);
      if error.Some? {
        return;
      }
      if !returned {
        AddCell(b, PaymentCell(owner.value, vcCapacity));
      }
    }
  }
}

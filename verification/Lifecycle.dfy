/** Whole channel lives on the ledger: open, fund or abort, disputes, then one of the ways to close. What is locked
    on the way in is what is paid on the way out. */
module Lifecycle {
  import opened Words
  import opened Wrappers
  import opened Cells
  import opened ChannelStates
  import opened Settlement
  import opened Statuses
  import opened ScriptHandlers

  // ---------- per-asset sums ----------

  function RowSum(r: Row): int {
    r.bal0 + r.bal1
  }

  /** The sum of SUDT h over the first n assets, and the cell capacity all SUDTs among them ask for. */
  function SudtSum(h: Script, s: State, n: nat): int
    requires WellFormed(s) && n <= |s.assets|
  {
    if n == 0 then 0
    else
      SudtSum(h, s, n - 1) +
      if s.assets[n - 1].Sudt? && s.assets[n - 1].typeScript == h then RowSum(s.balances[n - 1]) else 0
  }

  function SudtCapacity(assets: seq<Asset>, n: nat): nat
    requires n <= |assets|
  {
    if n == 0 then 0 else SudtCapacity(assets, n - 1) + if assets[n - 1].Sudt? then assets[n - 1].maxCapacity else 0
  }

  /** The SUDT rows of n assets, and of one fewer. */
  lemma {:induction false} NextSudtRow(s: State, n: nat)
    requires WellFormed(s) && 0 < n <= |s.assets| && Distinct(s.assets) && SudtRows(s, n).Ok?
    ensures SudtRows(s, n - 1).Ok?
    ensures var a, b := s.assets[n - 1], s.balances[n - 1];
            if a.Sudt?
            then 0 <= b.bal0 < TWO_128 && 0 <= b.bal1 < TWO_128 &&
                 SudtRows(s, n).value == SudtRows(s, n - 1).value
                   + [SudtBalances(a.typeScript, a.maxCapacity, b.bal0, b.bal1)]
            else SudtRows(s, n).value == SudtRows(s, n - 1).value
  {
    if s.assets[n - 1].Sudt? {
      OwnRow(s, n - 1);
    }
  }

  lemma {:induction false} RowsAreSums(h: Script, s: State, n: nat)
    requires WellFormed(s) && n <= |s.assets| && Distinct(s.assets) && SudtRows(s, n).Ok?
    ensures RowsTotal(h, SudtRows(s, n).value) == SudtSum(h, s, n)
    ensures RowsCapacity(SudtRows(s, n).value) == SudtCapacity(s.assets, n)
  {
    if n == 0 {
      NoRows(h);
      assert SudtRows(s, 0) == Ok([]);
    } else {
      hide SudtRows, Distinct, RowsTotal, RowsCapacity;
      NextSudtRow(s, n);
      RowsAreSums(h, s, n - 1);
      if s.assets[n - 1].Sudt? {
        var b := s.balances[n - 1];
        LastRow(h, SudtRows(s, n - 1).value,
                SudtBalances(s.assets[n - 1].typeScript, s.assets[n - 1].maxCapacity, b.bal0, b.bal1));
      }
    }
  }

  /** What the sub-channels hold of asset i. */
  function LockedSum(locked: seq<SubAlloc>, i: nat): int {
    if locked == [] then 0
    else
      var last := locked[|locked| - 1];
      LockedSum(locked[..|locked| - 1], i) + if i < |last.bals| then last.bals[i] else 0
  }

  function AssetSum(s: State, i: nat): int
    requires i < |s.balances|
  {
    RowSum(s.balances[i]) + LockedSum(s.locked, i)
  }

  /** The asset list of a channel never changes, and neither does the sum of any asset, sub-channels included. */
  predicate SameSums(s: State, t: State)
    requires WellFormed(s) && WellFormed(t)
  {
    s.assets == t.assets && forall i :: 0 <= i < |s.assets| ==> AssetSum(s, i) == AssetSum(t, i)
  }

  /** A virtual channel over the same assets that holds no more of any than t has locked. */
  predicate Backed(t: State, vc: State)
    requires WellFormed(t) && WellFormed(vc)
  {
    t.assets == vc.assets && forall i :: 0 <= i < |t.assets| ==> RowSum(vc.balances[i]) <= LockedSum(t.locked, i)
  }

  /** What the sub-channels of s hold of SUDT h, over the first n assets, and of CKBytes. */
  function LockedSudt(h: Script, s: State, n: nat): int
    requires WellFormed(s) && n <= |s.assets|
  {
    if n == 0 then 0
    else LockedSudt(h, s, n - 1) +
         if s.assets[n - 1].Sudt? && s.assets[n - 1].typeScript == h then LockedSum(s.locked, n - 1) else 0
  }

  function LockedCkb(s: State): int {
    match AssetIndex(s.assets, CKBytes)
    case None => 0
    case Some(k) => LockedSum(s.locked, k)
  }

  lemma {:induction false} SameSudtSum(h: Script, s: State, t: State, n: nat)
    requires WellFormed(s) && WellFormed(t) && SameSums(s, t) && n <= |s.assets|
    ensures SudtSum(h, s, n) + LockedSudt(h, s, n) == SudtSum(h, t, n) + LockedSudt(h, t, n)
  {
    if n > 0 {
      SameSudtSum(h, s, t, n - 1);
      assert AssetSum(s, n - 1) == AssetSum(t, n - 1);
    }
  }

  /** States with the same sums hold the same between balances and sub-channels. */
  lemma {:induction false} SumsKept(h: Script, s: State, t: State)
    requires WellFormed(s) && WellFormed(t) && Distinct(s.assets) && SameSums(s, t) && SudtsOf(s).Ok? && SudtsOf(t).Ok?
    ensures StateCkb(s) + LockedCkb(s) == StateCkb(t) + LockedCkb(t)
    ensures RowsTotal(h, SudtsOf(s).value) + LockedSudt(h, s, |s.assets|) ==
            RowsTotal(h, SudtsOf(t).value) + LockedSudt(h, t, |t.assets|)
    ensures RowsCapacity(SudtsOf(s).value) == RowsCapacity(SudtsOf(t).value)
  {
    RowsAreSums(h, s, |s.assets|);
    RowsAreSums(h, t, |t.assets|);
    SameSudtSum(h, s, t, |s.assets|);
    if i: nat :| i < |s.assets| && AssetIndex(s.assets, CKBytes) == Some(i) {
      assert AssetSum(s, i) == AssetSum(t, i);
    }
  }

  /** Channels over the same assets list the same SUDTs in the same order. */
  lemma {:induction false} RowsAlign(s: State, t: State, vc: State, n: nat)
    requires WellFormed(s) && WellFormed(t) && WellFormed(vc) && Distinct(s.assets) && SameSums(s, t) && Backed(t, vc)
             && SmallSums(s)
    requires n <= |s.assets| && SudtRows(t, n).Ok? && SudtRows(vc, n).Ok?
    ensures var rows, vrows := SudtRows(t, n).value, SudtRows(vc, n).value;
            |rows| == |vrows| && Aligned(rows, vrows) && SmallAmounts(rows, vrows)
  {
    if n > 0 {
      hide SudtRows, Distinct, LockedSum;
      NextSudtRow(t, n);
      NextSudtRow(vc, n);
      RowsAlign(s, t, vc, n - 1);
      if s.assets[n - 1].Sudt? {
        assert AssetSum(s, n - 1) == AssetSum(t, n - 1) < TWO_128;
      }
    } else {
      assert SudtRows(t, 0) == Ok([]) && SudtRows(vc, 0) == Ok([]);
    }
  }

  /** No asset sum reaches 2^128, the range an SUDT amount has on chain. */
  predicate SmallSums(s: State) {
    forall i :: 0 <= i < |s.balances| ==> AssetSum(s, i) < TWO_128
  }

  // ---------- who gets what ----------

  /** Party `part`'s CKBytes and its amount of SUDT h, over the first n assets. */
  function OwnCkb(s: State, part: nat, n: nat): int
    requires WellFormed(s) && part < 2 && n <= |s.assets|
  {
    if n == 0 then 0 else OwnCkb(s, part, n - 1) + if s.assets[n - 1].CKBytes? then s.balances[n - 1].Of(part) else 0
  }

  function OwnSudt(h: Script, s: State, part: nat, n: nat): int
    requires WellFormed(s) && part < 2 && n <= |s.assets|
  {
    if n == 0 then 0
    else
      OwnSudt(h, s, part, n - 1) +
      if s.assets[n - 1].Sudt? && s.assets[n - 1].typeScript == h then s.balances[n - 1].Of(part) else 0
  }

  lemma {:induction false} OneCKBytesRow(s: State, part: nat, n: nat)
    requires WellFormed(s) && Distinct(s.assets) && part < 2 && n <= |s.assets|
    ensures OwnCkb(s, part, n) ==
            match AssetIndex(s.assets, CKBytes)
            case None => 0
            case Some(k) => if k < n then s.balances[k].Of(part) else 0
  {
    if n > 0 {
      OneCKBytesRow(s, part, n - 1);
      var idx := AssetIndex(s.assets, CKBytes);
      if s.assets[n - 1].CKBytes? {
        assert SameAsset(s.assets[idx.value], s.assets[n - 1]);
        assert idx.value == n - 1;
      }
    }
  }

  lemma {:induction false} LastClaim(h: Script, rows: seq<SudtBalances>, r: SudtBalances, part: nat)
    requires part < 2
    ensures Claimed(h, ClaimsOf(rows + [r], part)) == Claimed(h, ClaimsOf(rows, part)) +
            if r.typeScript == h then r.Of(part) else 0
  {
    assert (rows + [r])[..|rows|] == rows;
    assert ClaimsOf(rows + [r], part)[..|rows|] == ClaimsOf(rows, part);
  }

  lemma {:induction false} ClaimsAreOwn(h: Script, s: State, part: nat, n: nat)
    requires WellFormed(s) && Distinct(s.assets) && part < 2 && n <= |s.assets| && SudtRows(s, n).Ok?
    ensures Claimed(h, ClaimsOf(SudtRows(s, n).value, part)) == OwnSudt(h, s, part, n)
  {
    if n == 0 {
      assert SudtRows(s, 0) == Ok([]);
    } else {
      hide SudtRows, Distinct, ClaimsOf, Claimed;
      NextSudtRow(s, n);
      ClaimsAreOwn(h, s, part, n - 1);
      if s.assets[n - 1].Sudt? {
        var b := s.balances[n - 1];
        LastClaim(h, SudtRows(s, n - 1).value,
                  SudtBalances(s.assets[n - 1].typeScript, s.assets[n - 1].maxCapacity, b.bal0, b.bal1), part);
      }
    }
  }

  /** Each party is paid its own balances: the cells locked for it carry its amount of every SUDT, and its CKBytes with
      the capacity of the SUDT cells - party 0 also gets the channel cell's capacity - but for its dust. */
  lemma {:induction false} PartyIsPaidItsOwn(
    min: MinCapacity, lock: Script, s: State, part: nat, channelCapacity: uint64, plainIfZero: bool, h: Script,
    share: Share)
    requires WellFormed(s) && Distinct(s.assets) && part < 2 && PartyShare(s, part, channelCapacity) == Ok(share)
    ensures var cells, n := PartyCells(min, lock, share, plainIfZero), |s.assets|;
            && (forall c :: c in cells ==> c.output.lock == lock)
            && SudtTotal(h, cells) == OwnSudt(h, s, part, n)
            && Same64(Ckb(cells) + Dust(min, lock, share),
                      OwnCkb(s, part, n) + (if part == 0 then channelCapacity else 0) + SudtCapacity(s.assets, n))
  {
    hide *;
    var carry := ShareIsOwn(s, part, channelCapacity, h, share);
    PaidToParty(min, lock, share, plainIfZero);
    PartyPaid(min, lock, share, plainIfZero, h);
    Carried(Ckb(PartyCells(min, lock, share, plainIfZero)) + Dust(min, lock, share),
            carry + PartyCarry(min, lock, share),
            OwnCkb(s, part, |s.assets|) +
              (if part == 0 then channelCapacity else 0) + SudtCapacity(s.assets, |s.assets|));
  }

  lemma {:induction false} ShareIsOwn(s: State, part: nat, channelCapacity: uint64, h: Script, share: Share)
      returns (carry: nat)
    requires WellFormed(s) && Distinct(s.assets) && part < 2 && PartyShare(s, part, channelCapacity) == Ok(share)
    ensures Claimed(h, share.claims) == OwnSudt(h, s, part, |s.assets|)
            && CapacitySum(share.claims) == SudtCapacity(s.assets, |s.assets|)
    ensures share.ckb + TWO_64 * carry == OwnCkb(s, part, |s.assets|) + if part == 0 then channelCapacity else 0
  {
    hide SudtRows, ClaimsOf, RowsTotal, RowsCapacity, Claimed, CapacitySum, SudtCapacity, OwnSudt, OwnCkb, SudtSum,
         Distinct;
    var bal: nat := CkbBalance(s, part).value;
    var rows := SudtsOf(s).value;
    OneCKBytesRow(s, part, |s.assets|);
    ClaimsAreOwn(h, s, part, |s.assets|);
    RowsAreSums(h, s, |s.assets|);
    ClaimsShareRows(h, rows);
    carry := if part == 0 then Carry(bal, channelCapacity) else 0;
  }

  /** With a virtual channel a party is owed, in CKBytes, its own parent balance and the virtual balance of the party it
      is mapped to. */
  lemma {:induction false} VcShareIsOwn(
    s: State, vc: State, part: nat, indexMap: seq<nat>, channelCapacity: uint64, refund: uint64, share: Share)
    returns (carries: nat)
    requires WellFormed(s) && WellFormed(vc) && Distinct(s.assets) && Distinct(vc.assets) && part < 2
    requires part < |indexMap| && indexMap[part] < 2
             && VcPartyShare(s, vc, part, indexMap, channelCapacity, refund) == Ok(share)
    ensures share.ckb + TWO_64 * carries ==
            OwnCkb(s, part, |s.assets|) + OwnCkb(vc, indexMap[part], |vc.assets|) +
              (if part == 0 then channelCapacity else 0) + refund
  {
    hide MergeSudts, Distinct, OwnCkb;
    var bal: nat, vcBal: nat := CkbBalance(s, part).value, VcCkbBalance(vc, part, indexMap).value;
    OneCKBytesRow(s, part, |s.assets|);
    OneCKBytesRow(vc, indexMap[part], |vc.assets|);
    var sum := Add64(bal, vcBal);
    carries := Carry(bal, vcBal) + (if part == 0 then Carry(sum, channelCapacity) else 0) +
               Carry(if part == 0 then Add64(sum, channelCapacity) else sum, refund);
  }

  // ---------- runs ----------

  datatype Env = Env(psh: PerunScriptHandler, pcts: Script, locks: (Script, Script)) {
    function Capacity(status: ChannelStatus): uint64 {
      psh.ChannelCell(pcts, status).output.capacity
    }
  }

  /** `funds` are the cells locked by the funds lock of this channel, `cell` is its live channel cell, as drafted. */
  datatype Chain =
    | Fresh
    | Open(initial: State, state: State, status: ChannelStatus, funds: seq<Cell>, cell: Cell)
    | Closed(initial: State, settled: State, vc: Option<State>, capacity: uint64, funds: seq<Cell>, paid: seq<Cell>,
             dust: nat,
             refunded: nat)

  datatype Event =
    | OpenChannel(token: OutPoint, s: State)
    | Fund(channel: OutPoint)
    | Dispute(t: State)
    | FirstVcDispute(t: State, vc: State, parents: seq<ParentData>, owner: Participant, vcts: Script)
    | VcProgress(t: State, vc: State, vcts: Script, vcStatus: VirtualChannelStatus)
    | Close(t: State, closing: ClosingWitness)
    | CloseWithVC(t: State, vc: State, indexMap: seq<nat>, refunds: (uint64, uint64))
    | Abort

  /** The status after a dispute that involves a virtual channel. */
  function UnderVc(status: ChannelStatus, t: State, vcts: Script): ChannelStatus
    requires WellFormed(t) && PackChannelState(t).Ok?
  {
    ChannelStatus(PackChannelState(t).value, status.funded, true, true, vcts)
  }

  predicate Proper(s: State) {
    WellFormed(s) && Distinct(s.assets) && SmallSums(s)
  }

  /** One accepted transaction; None if the client cannot build it or the contract would refuse it: only an unfunded
      channel can be funded or aborted, only a funded one disputed or closed, and states keep the sums. */
  function Next(env: Env, c: Chain, e: Event): Option<Chain> {
    match (c, e)
    case (Fresh, OpenChannel(token, s)) =>
      if !Proper(s) then None else
        (match env.psh.OpenDraft(token, env.pcts, s)
         case Err(_) => None
         case Ok(d) =>
           Some(Open(s, s, MkInitialChannelStatus(s).value, d.outputs[..|d.outputs| - 1], d.outputs[|d.outputs| - 1])))
    case (Open(initial, state, status, funds, _), Fund(channel)) =>
      if !Proper(state) || status.funded then None else
        (match env.psh.FundDraft(channel, env.pcts, status, state)
         case Err(_) => None
         case Ok(d) => Some(Open(initial, state, status.(funded := true), funds + d.outputs[1..], d.outputs[0])))
    case (Open(initial, state, status, funds, _), Dispute(t)) =>
      if !Proper(state) || !Proper(t) || !status.funded || !SameSums(state, t) then None else
        (match env.psh.DisputeDraft(OutPoint(0, 0), env.pcts, status, t)
         case Err(_) => None
         case Ok(d) =>
           Some(Open(initial, t, status.(state := PackChannelState(t).value, disputed := true), funds, d.outputs[0])))
    case (Open(initial, state, status, funds, _), FirstVcDispute(t, vc, parents, owner, vcts)) =>
      if !Proper(state) || !Proper(t) || !WellFormed(vc) || !status.funded || !SameSums(state, t) then None else
        (match env.psh.FirstVcDisputeDraft(OutPoint(0, 0), env.pcts, vcts, status, t, vc, parents, owner)
         case Err(_) => None
         case Ok(d) => Some(Open(initial, t, UnderVc(status, t, vcts), funds, d.outputs[1])))
    case (Open(initial, state, status, funds, _), VcProgress(t, vc, vcts, vcStatus)) =>
      if !Proper(state) || !Proper(t) || !WellFormed(vc) || !status.funded || !SameSums(state, t) then None else
        (match env.psh.VcProgressDraft(OutPoint(0, 0), OutPoint(0, 1), env.pcts, vcts, status, vcStatus, t, vc)
         case Err(_) => None
         case Ok(d) => Some(Open(initial, t, UnderVc(status, t, vcts), funds, d.outputs[0])))
    case (Open(initial, state, status, funds, _), Close(t, closing)) =>
      if !Proper(state) || !Proper(t) || !status.funded || !SameSums(state, t) then None else
        (match env.psh.CloseDraft(OutPoint(0, 0), [], env.locks, t, env.Capacity(status), closing)
         case Err(_) => None
         case Ok(d) =>
           Some(Closed(initial, t, None, env.Capacity(status), funds, d.outputs,
                       TotalDust(env.psh.minCapacity, env.locks, Shares(t, env.Capacity(status)).value), 0)))
    case (Open(initial, state, status, funds, _), CloseWithVC(t, vc, indexMap, refunds)) =>
      if !Proper(state) || !Proper(t) || !Proper(vc) || !status.funded || !SameSums(state, t) || !Backed(t, vc)
        || !Permutes(indexMap)
      then None else
        (match VcShares(t, vc, indexMap, env.Capacity(status), refunds)
         case Err(_) => None
         case Ok(shares) =>
           Some(Closed(initial, t, Some(vc), env.Capacity(status), funds,
                       SettlementCells(env.psh.minCapacity, env.locks, shares, true),
                       TotalDust(env.psh.minCapacity, env.locks, shares), refunds.0 + refunds.1)))
    case (Open(initial, state, status, funds, _), Abort) =>
      if !Proper(initial) || status.funded then None else
        (match env.psh.AbortDraft(OutPoint(0, 0), [], env.locks.0, initial, env.Capacity(status))
         case Err(_) => None
         case Ok(d) =>
           Some(Closed(initial, initial, None, env.Capacity(status), funds, d.outputs,
                       Dust(env.psh.minCapacity, env.locks.0, PartyShare(initial, 0, env.Capacity(status)).value), 0)))
    case _ => None
  }

  /** The chain after a run of events, refused ones leaving it as it is. */
  function Run(env: Env, events: seq<Event>): Chain {
    if events == [] then Fresh
    else
      var c := Run(env, events[..|events| - 1]);
      match Next(env, c, events[|events| - 1])
      case None => c
      case Some(d) => d
  }

  /** What is locked: party 0's funds when opened, and both parties' once funded. */
  predicate Locked(h: Script, initial: State, funded: bool, funds: seq<Cell>)
    requires WellFormed(initial) && SudtsOf(initial).Ok? && CkbBalance(initial, 0).Ok?
  {
    var rows := SudtsOf(initial).value;
    if funded then
      Ckb(funds) == StateCkb(initial) + 2 * RowsCapacity(rows) && SudtTotal(h, funds) == RowsTotal(h, rows)
    else
      && Ckb(funds) == CkbBalance(initial, 0).value + RowsCapacity(rows)
      && SudtTotal(h, funds) == Claimed(h, ClaimsOf(rows, 0))
  }

  /** What a settlement leaves unpaid: the amounts that the settled state, compared with the initial one, has moved into
      sub-channels and that no virtual channel settled along with it gives back. */
  function LeftCkb(initial: State, settled: State, vc: Option<State>): int
    requires vc.Some? ==> WellFormed(vc.value)
  {
    LockedCkb(settled) - LockedCkb(initial) - if vc.Some? then StateCkb(vc.value) else 0
  }

  function LeftSudt(h: Script, initial: State, settled: State, vc: Option<State>): int
    requires WellFormed(initial) && WellFormed(settled) && (vc.Some? ==> WellFormed(vc.value))
  {
    LockedSudt(h, settled, |settled.assets|) - LockedSudt(h, initial, |initial.assets|) -
    if vc.Some? then SudtSum(h, vc.value, |vc.value.assets|) else 0
  }

  predicate Conserved(h: Script, c: Chain) {
    match c
    case Fresh => true
    case Open(initial, state, status, funds, _) =>
      && Proper(initial) && Proper(state) && SameSums(initial, state)
      && SudtsOf(initial).Ok? && CkbBalance(initial, 0).Ok?
      && Locked(h, initial, status.funded, funds)
      && (!status.funded ==> state == initial)
    case Closed(initial, settled, vc, capacity, funds, paid, dust, refunded) =>
      && WellFormed(initial) && WellFormed(settled) && (vc.Some? ==> WellFormed(vc.value))
      && SudtTotal(h, paid) + LeftSudt(h, initial, settled, vc) == SudtTotal(h, funds)
      && Same64(Ckb(paid) + dust, Ckb(funds) + capacity + refunded - LeftCkb(initial, settled, vc))
  }

  lemma {:induction false} FundsLocked(h: Script, env: Env, s: State, part: nat)
    requires Proper(s) && part < 2 && env.psh.FundsCells(env.pcts, s, part).Ok?
    ensures SudtsOf(s).Ok? && CkbBalance(s, part).Ok?
    ensures var cells := env.psh.FundsCells(env.pcts, s, part).value;
            && Ckb(cells) == CkbBalance(s, part).value + RowsCapacity(SudtsOf(s).value)
            && SudtTotal(h, cells) == Claimed(h, ClaimsOf(SudtsOf(s).value, part))
  {
    hide ClaimCells, SudtsOf, CkbBalance, Distinct, SmallSums, AmountData;
    var bal: nat := CkbBalance(s, part).value;
    var rows := SudtsOf(s).value;
    var lock := env.psh.fundsLock(env.pcts);
    var pay := PaymentCell(lock, bal);
    var rest := ClaimCells(lock, ClaimsOf(rows, part), 0, false);
    ClaimCellsCarry(lock, ClaimsOf(rows, part), 0, false, h);
    ClaimsShareRows(h, rows);
    TotalConcat({}, ZERO_HASH, [pay], rest);
    SudtConcat(h, [pay], rest);
    SingleCell(h, pay);
  }

  lemma {:induction false} OpenLocks(h: Script, env: Env, s: State, funds: seq<Cell>, status: ChannelStatus)
    requires Proper(s) && env.psh.FundsCells(env.pcts, s, 0) == Ok(funds) && status.funded == InitialFundedStatus(s)
    ensures forall cell :: Conserved(h, Open(s, s, status, funds, cell))
  {
    FundsLocked(h, env, s, 0);
    if InitialFundedStatus(s) {
      InitiallyFunded(h, s);
    }
  }

  lemma {:induction false} OpenDraftIs(env: Env, token: OutPoint, s: State)
    requires Proper(s) && env.psh.OpenDraft(token, env.pcts, s).Ok?
    ensures env.psh.FundsCells(env.pcts, s, 0).Ok? && MkInitialChannelStatus(s).Ok?
    ensures var d := env.psh.OpenDraft(token, env.pcts, s).value;
            d.outputs[..|d.outputs| - 1] == env.psh.FundsCells(env.pcts, s, 0).value
    ensures MkInitialChannelStatus(s).value.funded == InitialFundedStatus(s)
  {
    hide PerunScriptHandler.FundsCells, PackChannelState;
    var d, funds := env.psh.OpenDraft(token, env.pcts, s).value, env.psh.FundsCells(env.pcts, s, 0).value;
    assert d.outputs[..|d.outputs| - 1] == funds;
  }

  /** A channel that counts as funded from the start needs nothing from party 1: what party 0 locks is everything. */
  lemma {:induction false} InitiallyFunded(h: Script, s: State)
    requires Proper(s) && InitialFundedStatus(s) && CkbBalance(s, 0).Ok?
    ensures SudtsOf(s) == Ok([])
    ensures StateCkb(s) == CkbBalance(s, 0).value
    ensures ClaimsOf([], 0) == [] && Claimed(h, []) == 0 && RowsTotal(h, []) == 0 && RowsCapacity([]) == 0
  {
    assert s.assets[0] == CKBytes;
    assert SudtRows(s, 0) == Ok([]) && SudtRows(s, 1) == Ok([]);
    assert AssetIndex(s.assets, CKBytes) == Some(0);
  }

  lemma {:induction false} FundLocks(h: Script, env: Env, channel: OutPoint, c: Chain)
    requires c.Open? && Conserved(h, c) && !c.status.funded
             && env.psh.FundDraft(channel, env.pcts, c.status, c.state).Ok?
    ensures var d := env.psh.FundDraft(channel, env.pcts, c.status, c.state).value;
            forall cell ::
              Conserved(h, Open(c.initial, c.state, c.status.(funded := true), c.funds + d.outputs[1..], cell))
  {
    hide SudtsOf, Ckb, SudtTotal, RowsTotal, RowsCapacity, Claimed, ClaimsOf, CapacitySum, Distinct, SmallSums,
         AssetIndex, PerunScriptHandler.FundsCells, PerunScriptHandler.ChannelCell;
    var d := env.psh.FundDraft(channel, env.pcts, c.status, c.state).value;
    var more := env.psh.FundsCells(env.pcts, c.state, 1).value;
    assert d.outputs[1..] == more;
    FundsLocked(h, env, c.state, 1);
    BothBalances(c.state);
    ClaimsShareRows(h, SudtsOf(c.state).value);
    CkbConcat(c.funds, more);
    SudtConcat(h, c.funds, more);
  }

  lemma {:induction false} CkbConcat(a: seq<Cell>, b: seq<Cell>)
    ensures Ckb(a + b) == Ckb(a) + Ckb(b)
  {
    TotalConcat({}, ZERO_HASH, a, b);
  }

  lemma {:induction false} BothBalances(s: State)
    requires WellFormed(s) && CkbBalance(s, 0).Ok? && CkbBalance(s, 1).Ok?
    ensures StateCkb(s) == (CkbBalance(s, 0).value as int) + (CkbBalance(s, 1).value as int)
  {}

  lemma {:induction false} SumsChain(s: State, t: State, u: State)
    requires WellFormed(s) && WellFormed(t) && WellFormed(u) && SameSums(s, t) && SameSums(t, u)
    ensures SameSums(s, u)
  {
    forall i | 0 <= i < |s.assets| ensures AssetSum(s, i) == AssetSum(u, i) {
      assert AssetSum(s, i) == AssetSum(t, i);
    }
  }

  lemma {:induction false} ClosePays(h: Script, env: Env, c: Chain, t: State, capacity: uint64, shares: (Share, Share))
    requires c.Open? && Conserved(h, c) && c.status.funded && Proper(t) && SameSums(c.state, t)
             && Shares(t, capacity) == Ok(shares)
    ensures Conserved(h, Closed(c.initial, t, None, capacity, c.funds,
                                SettlementCells(env.psh.minCapacity, env.locks, shares, false),
                                TotalDust(env.psh.minCapacity, env.locks, shares), 0))
  {
    hide Ckb, SudtTotal, RowsTotal, RowsCapacity, SudtsOf, SettlementCells, TotalDust, StateCkb, CkbBalance, Same64,
         ClaimsOf, Claimed, LockedCkb, LockedSudt;
    SumsChain(c.initial, c.state, t);
    SumsKept(h, c.initial, t);
    SettlementConserves(env.psh.minCapacity, env.locks, t, capacity, false, h, shares, SudtsOf(t).value);
  }

  lemma {:induction false} VcClosePays(h: Script, env: Env, c: Chain, t: State, vc: State, indexMap: seq<nat>,
                                       refunds: (uint64, uint64), capacity: uint64, shares: (Share, Share))
    requires c.Open? && Conserved(h, c) && c.status.funded && Proper(t) && Proper(vc) && SameSums(c.state, t)
             && Backed(t, vc)
    requires Permutes(indexMap) && VcShares(t, vc, indexMap, capacity, refunds) == Ok(shares)
    ensures Conserved(h, Closed(c.initial, t, Some(vc), capacity, c.funds,
                                SettlementCells(env.psh.minCapacity, env.locks, shares, true),
                                TotalDust(env.psh.minCapacity, env.locks, shares), refunds.0 + refunds.1))
  {
    hide Ckb, SudtTotal, RowsTotal, RowsCapacity, SettlementCells, TotalDust, StateCkb, CkbBalance, Same64, ClaimsOf,
         Claimed, MergedClaims, Aligned, SmallAmounts, VcShares, LockedCkb, LockedSudt, SudtSum;
    SumsChain(c.initial, c.state, t);
    var _ := MergedSharesAre(t, vc, indexMap, capacity, refunds, shares);
    SumsKept(h, c.initial, t);
    RowsAlign(c.initial, t, vc, |t.assets|);
    RowsAreSums(h, vc, |vc.assets|);
    var rows, vrows := SudtsOf(t).value, SudtsOf(vc).value;
    assert Unseen(rows, vrows) == [] && RowsTotal(h, []) == 0 by { NoRows(h); }
    VcSettlementConserves(env.psh.minCapacity, env.locks, t, vc, indexMap, capacity, refunds, h, shares, rows, vrows);
  }

  lemma {:induction false} NoRows(h: Script)
    ensures RowsTotal(h, []) == 0
  {}

  lemma {:induction false} AbortPays(h: Script, env: Env, c: Chain, capacity: uint64, share: Share)
    requires c.Open? && Conserved(h, c) && !c.status.funded && PartyShare(c.initial, 0, capacity) == Ok(share)
    ensures Conserved(h, Closed(c.initial, c.initial, None, capacity, c.funds,
                                PartyCells(env.psh.minCapacity, env.locks.0, share, false),
                                Dust(env.psh.minCapacity, env.locks.0, share), 0))
  {
    hide Ckb, SudtTotal, RowsTotal, RowsCapacity, SudtsOf, StateCkb, CkbBalance, Same64, ClaimsOf, Claimed, CapacitySum,
         PartyCells, Dust, PartyCarry, LockedCkb, LockedSudt;
    var bal: nat := CkbBalance(c.initial, 0).value;
    PartyPaid(env.psh.minCapacity, env.locks.0, share, false, h);
    ClaimsShareRows(h, SudtsOf(c.initial).value);
    Carried(Ckb(PartyCells(env.psh.minCapacity, env.locks.0, share, false))
            + Dust(env.psh.minCapacity, env.locks.0, share),
            Carry(bal, capacity) + PartyCarry(env.psh.minCapacity, env.locks.0, share), Ckb(c.funds) + capacity);
  }

  lemma {:induction false} StepConserves(h: Script, env: Env, c: Chain, e: Event)
    requires Conserved(h, c) && Next(env, c, e).Some?
    ensures Conserved(h, Next(env, c, e).value)
  {
    hide Locked, Distinct, SmallSums, SameSums, Backed, Same64, Ckb, SudtTotal, SudtsOf, CkbBalance, Shares, VcShares,
         PartyShare, SettlementCells, PartyCells, TotalDust, Dust, PerunScriptHandler.FundsCells, PackChannelState,
         MkInitialChannelStatus;
    match (c, e)
    case (Fresh, OpenChannel(token, s)) =>
      OpenDraftIs(env, token, s);
      OpenLocks(h, env, s, env.psh.FundsCells(env.pcts, s, 0).value, MkInitialChannelStatus(s).value);
    case (Open(_, _, _, _, _), Fund(channel)) => FundLocks(h, env, channel, c);
    case (Open(_, _, _, _, _), Dispute(t)) => DisputeKeeps(h, c, t);
    case (Open(_, _, _, _, _), FirstVcDispute(t, _, _, _, _)) => DisputeKeeps(h, c, t);
    case (Open(_, _, _, _, _), VcProgress(t, _, _, _)) => DisputeKeeps(h, c, t);
    case (Open(_, _, status, _, _), Close(t, _)) =>
      ClosePays(h, env, c, t, env.Capacity(status), Shares(t, env.Capacity(status)).value);
    case (Open(_, _, status, _, _), CloseWithVC(t, vc, indexMap, refunds)) =>
      VcClosePays(h, env, c, t, vc, indexMap, refunds, env.Capacity(status),
                  VcShares(t, vc, indexMap, env.Capacity(status), refunds).value);
    case (Open(initial, _, status, _, _), Abort) =>
      AbortPays(h, env, c, env.Capacity(status), PartyShare(initial, 0, env.Capacity(status)).value);
    case _ =>
  }

  lemma {:induction false} DisputeKeeps(h: Script, c: Chain, t: State)
    requires c.Open? && Conserved(h, c) && c.status.funded && Proper(t) && SameSums(c.state, t)
    ensures forall status: ChannelStatus, cell ::
              status.funded ==> Conserved(h, Open(c.initial, t, status, c.funds, cell))
  {
    hide PackChannelState, Ckb, SudtTotal, SudtsOf, CkbBalance, RowsTotal, RowsCapacity, StateCkb;
    SumsChain(c.initial, c.state, t);
  }

  /** Conservation over every run: however a channel ends, the SUDTs paid out are those locked by Open and Fund; so
      are the CKBytes, together with the channel cell's capacity and any refunds added in, but for the dust and for what
      the settled state leaves in sub-channels. */
  lemma {:induction false} RunConserves(h: Script, env: Env, events: seq<Event>)
    ensures Conserved(h, Run(env, events))
  {
    if events != [] {
      var c := Run(env, events[..|events| - 1]);
      RunConserves(h, env, events[..|events| - 1]);
      hide Conserved, Next;
      if Next(env, c, events[|events| - 1]).Some? {
        StepConserves(h, env, c, events[|events| - 1]);
      }
    }
  }

  /** Over every run, the channel cell holds the status the run has led to, that status holds the run's state, and what
      funds the channel is locked for it. */
  lemma {:induction false} RunIsOnChain(env: Env, events: seq<Event>)
    ensures OnChain(env, Run(env, events))
  {
    if events != [] {
      var c := Run(env, events[..|events| - 1]);
      RunIsOnChain(env, events[..|events| - 1]);
      hide OnChain, Next;
      if Next(env, c, events[|events| - 1]).Some? {
        StepIsOnChain(env, c, events[|events| - 1]);
      }
    }
  }

  predicate OnChain(env: Env, c: Chain) {
    c.Open? ==>
      && env.psh.HoldsStatus(c.cell, env.pcts, c.status) && env.psh.Funds(c.funds, env.pcts)
      && WellFormed(c.state) && PackChannelState(c.state) == Ok(c.status.state)
  }

  lemma {:induction false} StepIsOnChain(env: Env, c: Chain, e: Event)
    requires OnChain(env, c) && Next(env, c, e).Some?
    ensures OnChain(env, Next(env, c, e).value)
  {
    hide Distinct, SmallSums, SameSums, Backed, Shares, VcShares, PartyShare, SettlementCells, PartyCells, TotalDust,
         Dust, PackChannelState, PerunScriptHandler.HoldsStatus, PerunScriptHandler.HoldsVcStatus,
         PerunScriptHandler.OpenDraft, PerunScriptHandler.FundDraft, PerunScriptHandler.DisputeDraft,
         PerunScriptHandler.FirstVcDisputeDraft, PerunScriptHandler.VcProgressDraft;
    match (c, e)
    case (Fresh, OpenChannel(token, s)) =>
      env.psh.OpenWrites(token, env.pcts, s, env.psh.OpenDraft(token, env.pcts, s).value);
      InitialStatus(s);
    case (Open(_, state, status, _, _), Fund(channel)) =>
      env.psh.FundWrites(channel, env.pcts, status, state, env.psh.FundDraft(channel, env.pcts, status, state).value);
    case (Open(_, _, status, _, _), Dispute(t)) =>
      env.psh.DisputeWrites(OutPoint(0, 0), env.pcts, status, t,
                            env.psh.DisputeDraft(OutPoint(0, 0), env.pcts, status, t).value);
    case (Open(_, _, status, _, _), FirstVcDispute(t, vc, parents, owner, vcts)) =>
      var d := env.psh.FirstVcDisputeDraft(OutPoint(0, 0), env.pcts, vcts, status, t, vc, parents, owner).value;
      env.psh.FirstVcDisputeWrites(OutPoint(0, 0), env.pcts, vcts, status, t, vc, parents, owner, d);
    case (Open(_, _, status, _, _), VcProgress(t, vc, vcts, vcStatus)) =>
      var d :=
        env.psh.VcProgressDraft(OutPoint(0, 0), OutPoint(0, 1), env.pcts, vcts, status, vcStatus, t, vc).value;
      env.psh.VcProgressWrites(OutPoint(0, 0), OutPoint(0, 1), env.pcts, vcts, status, vcStatus, t, vc, d);
    case _ =>
  }

  lemma {:induction false} InitialStatus(s: State)
    requires WellFormed(s) && PackChannelState(s).Ok?
    ensures MkInitialChannelStatus(s) ==
            Ok(ChannelStatus(PackChannelState(s).value, s.assets == [CKBytes] && s.balances[0].bal1 == 0, false, false,
                             ZERO_HASH))
  {
    hide PackChannelState;
  }

  /** A closing transaction does not look at sub-channels. What it leaves there stays in its inputs and so falls to
      whoever submits it: everything is paid exactly if nothing is left. */
  lemma {:induction false} PaidInFull(h: Script, env: Env, events: seq<Event>)
    requires Run(env, events).Closed?
    ensures var c := Run(env, events);
            && WellFormed(c.initial) && WellFormed(c.settled) && (c.vc.Some? ==> WellFormed(c.vc.value))
            && var ckb := LeftCkb(c.initial, c.settled, c.vc);
            && (SudtTotal(h, c.paid) == SudtTotal(h, c.funds) <==> LeftSudt(h, c.initial, c.settled, c.vc) == 0)
            && (Ckb(c.funds) + c.capacity + c.refunded - ckb < TWO_64 ==>
                  (Ckb(c.paid) + c.dust == Ckb(c.funds) + c.capacity + c.refunded <==> ckb == 0))
  {
    RunConserves(h, env, events);
  }

  /** A channel in CKBytes to which party 0 alone contributes, and a state of it with x of them in a sub-channel. */
  function OwnChannel(amount: nat): (s: State)
    ensures amount < TWO_128 ==> Proper(s)
  {
    assert LockedSum([], 0) == 0;
    State(1, 0, false, [CKBytes], [Row(amount, 0)], [])
  }

  function WithSubChannel(amount: nat, x: nat): (t: State)
    requires x <= amount
    ensures amount < TWO_128 ==> Proper(t) && SameSums(OwnChannel(amount), t)
    ensures LockedCkb(t) == x
  {
    var t := State(1, 1, false, [CKBytes], [Row(amount - x, 0)], [SubAlloc(2, [x], [0, 1])]);
    assert t.locked[..0] == [] && LockedSum(t.locked, 0) == LockedSum([], 0) + x;
    t
  }

  lemma {:induction false} Opened(env: Env, token: OutPoint, amount: uint64) returns (c: Chain)
    requires env.psh.pflsMinCapacity <= amount
    ensures Next(env, Fresh, OpenChannel(token, OwnChannel(amount))) == Some(c)
    ensures c.Open? && c.initial == c.state == OwnChannel(amount) && c.status.funded
  {
    var s := OwnChannel(amount);
    NothingButCkb(s);
    OpenDraftIs(env, token, s);
    c := Next(env, Fresh, OpenChannel(token, s)).value;
  }

  lemma {:induction false} NothingButCkb(s: State)
    requires s.assets == [CKBytes] && |s.balances| == 1 && 0 <= s.balances[0].bal0 < TWO_64 && s.balances[0].bal1 == 0
    ensures SudtsOf(s) == Ok([]) && CkbBalance(s, 0) == Ok(s.balances[0].bal0) && CkbBalance(s, 1) == Ok(0)
    ensures s.locked == [] ==> PackChannelState(s).Ok?
  {
    assert SudtRows(s, 0) == Ok([]) && SudtRows(s, 1) == Ok([]);
    assert AssetIndex(s.assets, CKBytes) == Some(0);
    assert PackRows(s, 0) == Ok([]) && PackRows(s, 1).Ok?;
  }

  lemma {:induction false} Closes(env: Env, c: Chain, amount: uint64, x: uint64)
    requires x <= amount && c.Open? && c.initial == c.state == OwnChannel(amount) && c.status.funded
    ensures var t := WithSubChannel(amount, x);
            match Next(env, c, Close(t, ForceCloseWitness))
            case None => false
            case Some(d) => d.Closed? && d.initial == c.initial && d.settled == t && d.vc == None
  {
    hide SettlementCells, TotalDust, SudtsOf, CkbBalance, PackChannelState;
    NothingButCkb(WithSubChannel(amount, x));
  }

  /** That happens: a force close of such a state leaves x to its submitter. */
  lemma {:induction false} LeavesSubChannel(env: Env, token: OutPoint, amount: uint64, x: uint64)
    requires 0 < x <= amount && env.psh.pflsMinCapacity <= amount
    ensures var events := [OpenChannel(token, OwnChannel(amount)), Close(WithSubChannel(amount, x), ForceCloseWitness)];
            var c := Run(env, events);
            && c.Closed? && c.vc == None && LeftCkb(c.initial, c.settled, c.vc) == x
            && (Ckb(c.funds) + c.capacity < TWO_64 ==> Ckb(c.paid) + c.dust + x == Ckb(c.funds) + c.capacity)
  {
    var s, t := OwnChannel(amount), WithSubChannel(amount, x);
    var open, close := OpenChannel(token, s), Close(t, ForceCloseWitness);
    assert [open, close][..1] == [open] && [open][..0] == [];
    var d := Opened(env, token, amount);
    assert Run(env, [open]) == d;
    Closes(env, d, amount, x);
    RunConserves(1, env, [open, close]);
  }

  /** While a channel is funded, its funds cells hold what any state with its sums has in balances and sub-channels, and
      the capacity of both parties' SUDT cells. */
  lemma {:induction false} FundsOfRun(h: Script, env: Env, events: seq<Event>, t: State)
    requires Run(env, events).Open? && Run(env, events).status.funded
    requires WellFormed(t) && SudtsOf(t).Ok? && WellFormed(Run(env, events).state)
             && SameSums(Run(env, events).state, t)
    ensures var c, n := Run(env, events), |t.assets|;
            && WellFormed(c.initial)
            && Ckb(c.funds) == StateCkb(t) + LockedCkb(t) - LockedCkb(c.initial) + 2 * RowsCapacity(SudtsOf(t).value)
            && SudtTotal(h, c.funds) == RowsTotal(h, SudtsOf(t).value) + LockedSudt(h, t, n)
               - LockedSudt(h, c.initial, |c.initial.assets|)
  {
    hide SudtsOf, Ckb, SudtTotal, RowsTotal, RowsCapacity, StateCkb, LockedCkb, LockedSudt, CkbBalance, ClaimsOf,
         Claimed, Run;
    var c := Run(env, events);
    RunConserves(h, env, events);
    SumsChain(c.initial, c.state, t);
    SumsKept(h, c.initial, t);
  }
}

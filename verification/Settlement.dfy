/** transaction/handler.go: what a closing transaction pays to whom, as cells, and that nothing is lost on the way. */
module Settlement {
  import opened Words
  import opened Wrappers
  import opened Cells
  import opened ChannelStates

  datatype HandlerError = BalanceNotUint64 | BadState(cause: PackError) | IndexOutOfRange | BelowFundsMinimum | BadOwner
      | BadSignature

  /** What one payout cell has to carry of one SUDT. */
  datatype Claim = Claim(typeScript: Script, maxCapacity: uint64, amount: uint128)

  /** What one party is owed. */
  datatype Share = Share(ckb: uint64, claims: seq<Claim>)

  /** Script.OccupiedCapacity of payout scripts. */
  type MinCapacity = Script -> uint64

  // ---------- cells ----------

  function AmountData(amount: uint128): (data: Bytes)
    ensures |data| == 16 && LE.UnpackUint128(data).Int() == amount && UdtAmount(data) == Wrap(amount)
  {
    LE.PackUnpack(amount);
    LE.Uint128(amount % TWO_64, amount / TWO_64).StoreLittleEndian()
  }

  function PaymentCell(lock: Script, balance: uint64): Cell {
    Cell(CellOutput(balance, lock, None), [])
  }

  /** mkAssetOutput; a virtual channel settlement pays an SUDT balance of 0 as plain CKBytes. */
  function ClaimCell(lock: Script, c: Claim, extra: uint64, plainIfZero: bool): Cell {
    var capacity := Add64(c.maxCapacity, extra);
    if plainIfZero && c.amount == 0 then PaymentCell(lock, capacity)
    else Cell(CellOutput(capacity, lock, Some(c.typeScript)), AmountData(c.amount))
  }

  /** The extra CKBytes ride on the first cell. */
  function ClaimCells(lock: Script, claims: seq<Claim>, extra: uint64, plainIfZero: bool): (cells: seq<Cell>)
    ensures |cells| == |claims|
  {
    if claims == [] then []
    else
      var n := |claims| - 1;
      ClaimCells(lock, claims[..n], extra, plainIfZero)
        + [ClaimCell(lock, claims[n], if n == 0 then extra else 0, plainIfZero)]
  }

  /** A balance that cannot pay for a cell of its own is carried by the first SUDT cell. */
  function PartyCells(min: MinCapacity, lock: Script, share: Share, plainIfZero: bool): seq<Cell> {
    if share.ckb >= min(lock) then [PaymentCell(lock, share.ckb)] + ClaimCells(lock, share.claims, 0, plainIfZero)
    else ClaimCells(lock, share.claims, share.ckb, plainIfZero)
  }

  /** What goes to no one. */
  function Dust(min: MinCapacity, lock: Script, share: Share): uint64 {
    if share.ckb < min(lock) && share.claims == [] then share.ckb else 0
  }

  // ---------- amounts ----------

  function Ckb(cells: seq<Cell>): nat {
    Total({}, ZERO_HASH, cells)
  }

  lemma {:induction false} CkbOfAny(known: set<Script>, cells: seq<Cell>)
    ensures Total(known, ZERO_HASH, cells) == Ckb(cells)
  {
    if cells != [] {
      CkbOfAny(known, cells[..|cells| - 1]);
    }
  }

  /** The full 16-byte amount of an SUDT. */
  function SudtAmount(h: Script, c: Cell): nat {
    if c.output.typ == Some(h) && |c.data| >= 16 then LE.UnpackUint128(c.data).Int() else 0
  }

  function SudtTotal(h: Script, cells: seq<Cell>): nat {
    if cells == [] then 0 else SudtTotal(h, cells[..|cells| - 1]) + SudtAmount(h, cells[|cells| - 1])
  }

  lemma {:induction false} SudtConcat(h: Script, a: seq<Cell>, b: seq<Cell>)
    ensures SudtTotal(h, a + b) == SudtTotal(h, a) + SudtTotal(h, b)
  {
    if b == [] {
      assert a + b == a;
    } else {
      var n := |b| - 1;
      SudtConcat(h, a, b[..n]);
      assert (a + b)[..|a + b| - 1] == a + b[..n];
    }
  }

  lemma {:induction false} SingleCell(h: Script, c: Cell)
    ensures Ckb([c]) == c.output.capacity && SudtTotal(h, [c]) == SudtAmount(h, c)
  {
    assert [c][..0] == [] && Total({}, ZERO_HASH, []) == 0 && SudtTotal(h, []) == 0;
  }

  /** Cell k pays claim k: a cell of the SUDT with the amount as its data, or plain CKBytes where an amount of 0 is left
      out; the first cell carries the extra CKBytes. */
  lemma {:induction false} ClaimCellAt(lock: Script, claims: seq<Claim>, extra: uint64, plainIfZero: bool, k: nat)
    requires k < |claims|
    ensures var cells, claim := ClaimCells(lock, claims, extra, plainIfZero), claims[k];
            && |cells| == |claims| && cells[k].output.lock == lock
            && cells[k].output.capacity == (if k == 0 then Add64(claim.maxCapacity, extra) else claim.maxCapacity)
            && if plainIfZero && claim.amount == 0 then cells[k].output.typ == None && cells[k].data == []
               else && cells[k].output.typ == Some(claim.typeScript) && |cells[k].data| == 16
                    && LE.UnpackUint128(cells[k].data).Int() == claim.amount
  {
    hide LE.UnpackUint128, AmountData;
    if k < |claims| - 1 {
      ClaimCellAt(lock, claims[..|claims| - 1], extra, plainIfZero, k);
    }
  }

  function CapacitySum(claims: seq<Claim>): nat {
    if claims == [] then 0 else CapacitySum(claims[..|claims| - 1]) + claims[|claims| - 1].maxCapacity
  }

  function Claimed(h: Script, claims: seq<Claim>): nat {
    if claims == [] then 0
    else
      var c := claims[|claims| - 1];
      Claimed(h, claims[..|claims| - 1]) + if c.typeScript == h then c.amount else 0
  }

  /** 1 if adding two uint64 values wraps around. */
  function Carry(x: uint64, y: uint64): nat {
    if x + y < TWO_64 then 0 else 1
  }

  lemma {:induction false} ClaimCellHolds(lock: Script, c: Claim, extra: uint64, plainIfZero: bool, h: Script)
    ensures var cell := ClaimCell(lock, c, extra, plainIfZero);
            cell.output.capacity == Add64(c.maxCapacity, extra) && SudtAmount(h, cell) ==
              if c.typeScript == h then c.amount else 0
  {
    hide LE.Digits, LE.UnpackUint128, LE.UnpackUint64, UdtAmount;
  }

  lemma {:induction false} LastClaimCell(lock: Script, claims: seq<Claim>, extra: uint64, plainIfZero: bool, h: Script)
    requires claims != []
    ensures var n := |claims| - 1;
            var x := if n == 0 then extra else 0;
            var before, all := ClaimCells(lock, claims[..n], extra, plainIfZero),
              ClaimCells(lock, claims, extra, plainIfZero);
            && SudtTotal(h, all) == SudtTotal(h, before) + (if claims[n].typeScript == h then claims[n].amount else 0)
            && Ckb(all) == Ckb(before) + Add64(claims[n].maxCapacity, x)
  {
    var n := |claims| - 1;
    hide ClaimCell, SudtTotal, Ckb;
    var x := if n == 0 then extra else 0;
    var c := ClaimCell(lock, claims[n], x, plainIfZero);
    var before := ClaimCells(lock, claims[..n], extra, plainIfZero);
    ClaimCellHolds(lock, claims[n], x, plainIfZero, h);
    CellsConcat(h, before, [c]);
    SingleCell(h, c);
  }

  lemma {:induction false} CellsConcat(h: Script, a: seq<Cell>, b: seq<Cell>)
    ensures Ckb(a + b) == Ckb(a) + Ckb(b) && SudtTotal(h, a + b) == SudtTotal(h, a) + SudtTotal(h, b)
  {
    TotalConcat({}, ZERO_HASH, a, b);
    SudtConcat(h, a, b);
  }

  /** SUDT cells carry the claims, the capacity asked for and the extra CKBytes, but for a wrap-around on the first. */
  lemma {:induction false} ClaimCellsCarry(lock: Script, claims: seq<Claim>, extra: uint64, plainIfZero: bool,
                                           h: Script)
    ensures var cells := ClaimCells(lock, claims, extra, plainIfZero);
            && SudtTotal(h, cells) == Claimed(h, claims)
            && Ckb(cells) + TWO_64 * (if claims == [] then 0 else Carry(claims[0].maxCapacity, extra))
               == CapacitySum(claims) + (if claims == [] then 0 else extra)
  {
    if claims == [] {
      assert ClaimCells(lock, claims, extra, plainIfZero) == [];
      NoCells(h);
    } else {
      hide ClaimCells, SudtTotal, Ckb;
      ClaimCellsCarry(lock, claims[..|claims| - 1], extra, plainIfZero, h);
      LastClaimCell(lock, claims, extra, plainIfZero, h);
    }
  }

  lemma {:induction false} NoCells(h: Script)
    ensures Ckb([]) == 0 && SudtTotal(h, []) == 0
  {}

  function PartyCarry(min: MinCapacity, lock: Script, share: Share): nat {
    if share.ckb >= min(lock) || share.claims == [] then 0 else Carry(share.claims[0].maxCapacity, share.ckb)
  }

  /** One party's cells carry exactly its share: all SUDTs, and all CKBytes but the dust - plus the capacity every
      SUDT cell needs. */
  lemma {:induction false} PartyPaid(min: MinCapacity, lock: Script, share: Share, plainIfZero: bool, h: Script)
    ensures var cells := PartyCells(min, lock, share, plainIfZero);
            && SudtTotal(h, cells) == Claimed(h, share.claims)
            && Ckb(cells) + Dust(min, lock, share) + TWO_64 * PartyCarry(min, lock, share)
               == share.ckb + CapacitySum(share.claims)
  {
    if share.ckb >= min(lock) {
      var pay := PaymentCell(lock, share.ckb);
      var rest := ClaimCells(lock, share.claims, 0, plainIfZero);
      ClaimCellsCarry(lock, share.claims, 0, plainIfZero, h);
      TotalConcat({}, ZERO_HASH, [pay], rest);
      SudtConcat(h, [pay], rest);
      SingleCell(h, pay);
    } else {
      ClaimCellsCarry(lock, share.claims, share.ckb, plainIfZero, h);
    }
  }

  /** All cells of one party are locked for it, and an SUDT cell holds what its claim says. */
  lemma {:induction false} PaidToParty(min: MinCapacity, lock: Script, share: Share, plainIfZero: bool)
    ensures forall c :: c in PartyCells(min, lock, share, plainIfZero) ==> c.output.lock == lock
  {
    ClaimCellsLocked(lock, share.claims, 0, plainIfZero);
    ClaimCellsLocked(lock, share.claims, share.ckb, plainIfZero);
  }

  lemma {:induction false} ClaimCellsLocked(lock: Script, claims: seq<Claim>, extra: uint64, plainIfZero: bool)
    ensures forall c :: c in ClaimCells(lock, claims, extra, plainIfZero) ==> c.output.lock == lock
  {
    if claims != [] {
      ClaimCellsLocked(lock, claims[..|claims| - 1], extra, plainIfZero);
    }
  }

  // ---------- shares of a channel state ----------

  /** GetCKByteBalance. */
  function CkbBalance(s: State, part: nat): Result<uint64, HandlerError>
    requires WellFormed(s) && part < 2
  {
    match AssetIndex(s.assets, CKBytes)
    case None => Ok(0)
    case Some(k) =>
      var bal := s.balances[k].Of(part);
      if 0 <= bal < TWO_64 then Ok(bal) else Err(BalanceNotUint64)
  }

  /** GetCKByteBalanceFromVirtualChannel; a map too short or out of range panics. */
  function VcCkbBalance(vc: State, part: nat, indexMap: seq<nat>): Result<uint64, HandlerError>
    requires WellFormed(vc)
  {
    if AssetIndex(vc.assets, CKBytes) == None then Ok(0)
    else if part < |indexMap| && indexMap[part] < 2 then CkbBalance(vc, indexMap[part])
    else Err(IndexOutOfRange)
  }

  function ClaimsOf(rows: seq<SudtBalances>, part: nat): (claims: seq<Claim>)
    requires part < 2
    ensures |claims| == |rows|
  {
    if rows == [] then []
    else
      var n := |rows| - 1;
      ClaimsOf(rows[..n], part) + [Claim(rows[n].typeScript, rows[n].maxCapacity, rows[n].Of(part))]
  }

  function SudtsOf(s: State): Result<seq<SudtBalances>, HandlerError>
    requires WellFormed(s)
  {
    match SudtRows(s, |s.assets|)
    case Err(e) => Err(BadState(e))
    case Ok(rows) => Ok(rows)
  }

  /** Party 0 is also given the capacity of the channel cell. */
  function PartyShare(s: State, part: nat, channelCapacity: uint64): Result<Share, HandlerError>
    requires WellFormed(s) && part < 2
  {
    match CkbBalance(s, part)
    case Err(e) => Err(e)
    case Ok(bal) =>
      match SudtsOf(s)
      case Err(e) => Err(e)
      case Ok(rows) => Ok(Share(if part == 0 then Add64(bal, channelCapacity) else bal, ClaimsOf(rows, part)))
  }

  /** Merging in the virtual channel: parent side by mapped index, virtual side by the party's own. Virtual SUDTs
      beyond the parent's list are not looked at. */
  function MergedClaims(parent: seq<SudtBalances>, virtual: seq<SudtBalances>, part: nat,
                        mapped: nat): (claims: seq<Claim>)
    requires part < 2 && mapped < 2
    ensures |claims| == |parent|
  {
    if parent == [] then []
    else
      var n := |parent| - 1;
      var v := if n < |virtual| then virtual[n].Of(part) else 0;
      MergedClaims(parent[..n], virtual, part, mapped) +
      [Claim(parent[n].typeScript, parent[n].maxCapacity, Add128(parent[n].Of(mapped), v))]
  }

  function MergeSudts(s: State, vc: State, part: nat, indexMap: seq<nat>): Result<seq<Claim>, HandlerError>
    requires WellFormed(s) && WellFormed(vc) && part < 2
  {
    match (SudtsOf(s), SudtsOf(vc))
    case (Err(e), _) => Err(e)
    case (Ok(_), Err(e)) => Err(e)
    case (Ok(rows), Ok(vrows)) =>
      if part >= |indexMap| then Err(IndexOutOfRange)
      else if rows == [] then Ok([])
      else if indexMap[part] >= 2 then Err(IndexOutOfRange)
      else Ok(MergedClaims(rows, vrows, part, indexMap[part]))
  }

  /** refund: the virtual channel cell's capacity, if this party is its owner in a second force close. */
  function VcPartyShare(s: State, vc: State, part: nat, indexMap: seq<nat>, channelCapacity: uint64, refund: uint64)
    : Result<Share, HandlerError>
    requires WellFormed(s) && WellFormed(vc) && part < 2
  {
    match CkbBalance(s, part)
    case Err(e) => Err(e)
    case Ok(bal) =>
      match VcCkbBalance(vc, part, indexMap)
      case Err(e) => Err(e)
      case Ok(vcBal) =>
        match MergeSudts(s, vc, part, indexMap)
        case Err(e) => Err(e)
        case Ok(claims) =>
          var sum := Add64(bal, vcBal);
          Ok(Share(Add64(if part == 0 then Add64(sum, channelCapacity) else sum, refund), claims))
  }

  // ---------- when there is a share ----------

  /** A party's CKByte balance fits 64 bits. */
  predicate CkbFits(s: State, part: nat)
    requires WellFormed(s) && part < 2
  {
    forall i :: 0 <= i < |s.assets| && s.assets[i] == CKBytes ==> 0 <= s.balances[i].Of(part) < TWO_64
  }

  lemma {:induction false} CkbBalanceExactly(s: State, part: nat)
    requires WellFormed(s) && Distinct(s.assets) && part < 2
    ensures CkbBalance(s, part).Ok? <==> CkbFits(s, part)
    ensures CkbBalance(s, part) == Ok(0) || CkbBalance(s, part).Err? || CKBytes in s.assets
    ensures AssetIndex(s.assets, CKBytes) == None <==> CKBytes !in s.assets
  {
    if CKBytes in s.assets {
      var i: nat :| i < |s.assets| && s.assets[i] == CKBytes;
      var k := AssetIndex(s.assets, CKBytes).value;
      assert SameAsset(s.assets[k], s.assets[i]);
      forall j | 0 <= j < |s.assets| && s.assets[j] == CKBytes ensures j == k {
        assert SameAsset(s.assets[j], s.assets[k]);
      }
    }
  }

  /** A close can be drafted exactly if all CKByte balances fit and the SUDT rows can be read. */
  lemma {:induction false} SharesExactly(s: State, channelCapacity: uint64)
    requires WellFormed(s) && Distinct(s.assets)
    ensures Shares(s, channelCapacity).Ok? <==> CkbFits(s, 0) && CkbFits(s, 1) && SudtsOf(s).Ok?
  {
    hide CkbFits, SudtsOf;
    CkbBalanceExactly(s, 0);
    CkbBalanceExactly(s, 1);
  }

  /** With a virtual channel, a party has a share exactly if both channels' rows can be read, the index map has an entry
      for it, and that entry, if it is looked at, is in range and leads to a balance that fits. It is looked at for
      virtual CKBytes and for parent SUDTs. */
  lemma {:induction false} VcShareExactly(s: State, vc: State, part: nat, indexMap: seq<nat>, channelCapacity: uint64,
                                          refund: uint64)
    requires WellFormed(s) && WellFormed(vc) && Distinct(s.assets) && Distinct(vc.assets) && part < 2
    ensures VcPartyShare(s, vc, part, indexMap, channelCapacity, refund).Ok? <==>
            && CkbFits(s, part) && SudtsOf(s).Ok? && SudtsOf(vc).Ok? && part < |indexMap|
            && (CKBytes in vc.assets ==> indexMap[part] < 2 && CkbFits(vc, indexMap[part]))
            && (SudtsOf(s).value != [] ==> indexMap[part] < 2)
  {
    hide SudtsOf, CkbFits, CkbBalance, MergedClaims;
    CkbBalanceExactly(s, part);
    CkbBalanceExactly(vc, 0);
    if part < |indexMap| && indexMap[part] < 2 {
      CkbBalanceExactly(vc, indexMap[part]);
    }
  }

  // ---------- conservation ----------

  function RowsTotal(h: Script, rows: seq<SudtBalances>): nat
  {
    if rows == [] then 0
    else
      var r := rows[|rows| - 1];
      RowsTotal(h, rows[..|rows| - 1]) + if r.typeScript == h then r.Both() else 0
  }

  function RowsCapacity(rows: seq<SudtBalances>): nat {
    if rows == [] then 0 else RowsCapacity(rows[..|rows| - 1]) + rows[|rows| - 1].maxCapacity
  }

  lemma {:induction false} ClaimsShareRows(h: Script, rows: seq<SudtBalances>)
    ensures Claimed(h, ClaimsOf(rows, 0)) + Claimed(h, ClaimsOf(rows, 1)) == RowsTotal(h, rows)
    ensures CapacitySum(ClaimsOf(rows, 0)) == RowsCapacity(rows) == CapacitySum(ClaimsOf(rows, 1))
  {
    if rows != [] {
      var n := |rows| - 1;
      ClaimsShareRows(h, rows[..n]);
      assert ClaimsOf(rows, 0)[..n] == ClaimsOf(rows[..n], 0) && ClaimsOf(rows, 1)[..n] == ClaimsOf(rows[..n], 1);
    }
  }

  /** What a channel state holds of CKBytes and of an SUDT, over both parties. */
  function StateCkb(s: State): int
    requires WellFormed(s)
  {
    match AssetIndex(s.assets, CKBytes)
    case None => 0
    case Some(k) => s.balances[k].bal0 + s.balances[k].bal1
  }

  /** The two parties' cells of a Close or ForceClose. */
  function SettlementCells(min: MinCapacity, locks: (Script, Script), shares: (Share, Share),
                           plainIfZero: bool): seq<Cell> {
    PartyCells(min, locks.0, shares.0, plainIfZero) + PartyCells(min, locks.1, shares.1, plainIfZero)
  }

  function TotalDust(min: MinCapacity, locks: (Script, Script), shares: (Share, Share)): nat {
    Dust(min, locks.0, shares.0) + Dust(min, locks.1, shares.1)
  }

  lemma {:induction false} SharesPaid(min: MinCapacity, locks: (Script, Script), shares: (Share, Share),
                                      plainIfZero: bool, h: Script)
    ensures var cells := SettlementCells(min, locks, shares, plainIfZero);
            && SudtTotal(h, cells) == Claimed(h, shares.0.claims) + Claimed(h, shares.1.claims)
            && Ckb(cells) + TotalDust(min, locks, shares)
               + TWO_64 * (PartyCarry(min, locks.0, shares.0) + PartyCarry(min, locks.1, shares.1))
               == shares.0.ckb + CapacitySum(shares.0.claims) + shares.1.ckb + CapacitySum(shares.1.claims)
  {
    PartyPaid(min, locks.0, shares.0, plainIfZero, h);
    PartyPaid(min, locks.1, shares.1, plainIfZero, h);
    TotalConcat({}, ZERO_HASH, PartyCells(min, locks.0, shares.0, plainIfZero),
                PartyCells(min, locks.1, shares.1, plainIfZero));
    SudtConcat(h, PartyCells(min, locks.0, shares.0, plainIfZero), PartyCells(min, locks.1, shares.1, plainIfZero));
  }

  /** There is no dust if the channel has an SUDT, or if both parties can pay for a cell. */
  lemma {:induction false} NoDust(min: MinCapacity, locks: (Script, Script), shares: (Share, Share))
    requires |shares.0.claims| == |shares.1.claims|
    ensures TotalDust(min, locks, shares) == 0 <==>
            || shares.0.claims != []
            || ((shares.0.ckb >= min(locks.0) || shares.0.ckb == 0)
                && (shares.1.ckb >= min(locks.1) || shares.1.ckb == 0))
  {}

  function Shares(s: State, channelCapacity: uint64): Result<(Share, Share), HandlerError>
    requires WellFormed(s)
  {
    match (PartyShare(s, 0, channelCapacity), PartyShare(s, 1, channelCapacity))
    case (Err(e), _) => Err(e)
    case (Ok(_), Err(e)) => Err(e)
    case (Ok(a), Ok(b)) => Ok((a, b))
  }

  /** Close and ForceClose: all SUDTs of the state are paid out; so are its CKBytes, the channel cell's capacity and
      the capacity of the SUDT cells, but for the dust - exactly if the sum is below 2^64, else modulo 2^64. */
  lemma {:induction false} SettlementConserves(
    min: MinCapacity, locks: (Script, Script), s: State, channelCapacity: uint64, plainIfZero: bool, h: Script,
    shares: (Share, Share), rows: seq<SudtBalances>)
    requires WellFormed(s) && Shares(s, channelCapacity) == Ok(shares) && SudtsOf(s) == Ok(rows)
    ensures var cells := SettlementCells(min, locks, shares, plainIfZero);
            && SudtTotal(h, cells) == RowsTotal(h, rows)
            && Same64(Ckb(cells) + TotalDust(min, locks, shares),
                      StateCkb(s) + channelCapacity + 2 * RowsCapacity(rows))
  {
    hide *;
    var carries := SharesHold(s, channelCapacity, shares, rows);
    ClaimsShareRows(h, rows);
    SharesPaid(min, locks, shares, plainIfZero, h);
    Carried(Ckb(SettlementCells(min, locks, shares, plainIfZero)) + TotalDust(min, locks, shares),
            carries + PartyCarry(min, locks.0, shares.0) + PartyCarry(min, locks.1, shares.1),
            StateCkb(s) + channelCapacity + 2 * RowsCapacity(rows));
  }

  lemma {:induction false} SharesHold(s: State, channelCapacity: uint64, shares: (Share, Share),
                                      rows: seq<SudtBalances>) returns (carries: nat)
    requires WellFormed(s) && Shares(s, channelCapacity) == Ok(shares) && SudtsOf(s) == Ok(rows)
    ensures shares.0.claims == ClaimsOf(rows, 0) && shares.1.claims == ClaimsOf(rows, 1)
    ensures shares.0.ckb + shares.1.ckb + TWO_64 * carries == StateCkb(s) + channelCapacity
  {
    hide AssetIndex, SudtsOf, ClaimsOf;
    var bal0: nat := CkbBalance(s, 0).value;
    carries := Carry(bal0, channelCapacity);
  }

  /** Equal modulo 2^64, and equal outright if nothing can have wrapped around. */
  predicate Same64(paid: nat, due: int) {
    Wrap(paid) == Wrap(due) && (due < TWO_64 ==> paid == due)
  }

  /** What n wrap-arounds do to a sum. */
  lemma {:induction false} Carried(paid: nat, n: nat, due: int)
    requires paid + TWO_64 * n == due
    ensures Same64(paid, due)
  {
    assert due == TWO_64 * (paid / TWO_64 + n) + paid % TWO_64;
  }

  // ---------- virtual channel settlement ----------

  predicate Permutes(indexMap: seq<nat>) {
    |indexMap| >= 2 && ((indexMap[0] == 0 && indexMap[1] == 1) || (indexMap[0] == 1 && indexMap[1] == 0))
  }

  /** Both channels list the same SUDTs in the same order, as far as both go. */
  predicate Aligned(parent: seq<SudtBalances>, virtual: seq<SudtBalances>) {
    forall k :: 0 <= k < |parent| && k < |virtual| ==> parent[k].typeScript == virtual[k].typeScript
  }

  /** No two balances of a row pair add up to 2^128. */
  predicate SmallAmounts(parent: seq<SudtBalances>, virtual: seq<SudtBalances>) {
    forall k :: 0 <= k < |parent| && k < |virtual| ==> parent[k].Both() + virtual[k].Both() < TWO_128
  }

  /** The virtual channel's rows that a settlement looks at, and those it does not. */
  function Seen(parent: seq<SudtBalances>, virtual: seq<SudtBalances>): seq<SudtBalances> {
    if |virtual| <= |parent| then virtual else virtual[..|parent|]
  }

  function Unseen(parent: seq<SudtBalances>, virtual: seq<SudtBalances>): seq<SudtBalances> {
    if |virtual| <= |parent| then [] else virtual[|parent|..]
  }

  lemma {:induction false} RowsConcat(h: Script, a: seq<SudtBalances>, b: seq<SudtBalances>)
    ensures RowsTotal(h, a + b) == RowsTotal(h, a) + RowsTotal(h, b)
  {
    if b == [] {
      assert a + b == a;
    } else {
      var n := |b| - 1;
      RowsConcat(h, a, b[..n]);
      assert (a + b)[..|a + b| - 1] == a + b[..n];
    }
  }

  lemma {:induction false} LastMerged(h: Script, parent: seq<SudtBalances>, virtual: seq<SudtBalances>, part: nat,
                                      mapped: nat)
    requires part < 2 && mapped < 2 && parent != []
    ensures var n := |parent| - 1;
            var r, v := parent[n], if n < |virtual| then virtual[n].Of(part) else 0;
            var all, before := MergedClaims(parent, virtual, part, mapped),
              MergedClaims(parent[..n], virtual, part, mapped);
            && Claimed(h, all) == Claimed(h, before) + (if r.typeScript == h then Add128(r.Of(mapped), v) else 0)
            && CapacitySum(all) == CapacitySum(before) + r.maxCapacity
  {
    var n := |parent| - 1;
    assert MergedClaims(parent, virtual, part, mapped)[..n] == MergedClaims(parent[..n], virtual, part, mapped);
  }

  lemma {:induction false} LastRow(h: Script, rows: seq<SudtBalances>, r: SudtBalances)
    ensures RowsTotal(h, rows + [r]) == RowsTotal(h, rows) + if r.typeScript == h then r.Both() else 0
    ensures RowsCapacity(rows + [r]) == RowsCapacity(rows) + r.maxCapacity
  {
    assert (rows + [r])[..|rows|] == rows;
  }

  /** The balances that row n of both channels adds to SUDT h. */
  function RowPair(h: Script, parent: seq<SudtBalances>, virtual: seq<SudtBalances>, n: nat): nat
    requires n < |parent|
  {
    if parent[n].typeScript == h then parent[n].Both() + (if n < |virtual| then virtual[n].Both() else 0) else 0
  }

  lemma {:induction false} MergedNext(h: Script, parent: seq<SudtBalances>, virtual: seq<SudtBalances>, m: nat)
    requires m < 2 && parent != [] && SmallAmounts(parent, virtual)
    ensures var n := |parent| - 1;
            var a, b := MergedClaims(parent, virtual, 0, m), MergedClaims(parent, virtual, 1, 1 - m);
            var c, d := MergedClaims(parent[..n], virtual, 0, m), MergedClaims(parent[..n], virtual, 1, 1 - m);
            && Claimed(h, a) + Claimed(h, b) == Claimed(h, c) + Claimed(h, d) + RowPair(h, parent, virtual, n)
            && CapacitySum(a) == CapacitySum(c) + parent[n].maxCapacity
               && CapacitySum(b) == CapacitySum(d) + parent[n].maxCapacity
  {
    hide MergedClaims, Claimed, CapacitySum;
    var n := |parent| - 1;
    LastMerged(h, parent, virtual, 0, m);
    LastMerged(h, parent, virtual, 1, 1 - m);
    if n < |virtual| {
      assert parent[n].Both() + virtual[n].Both() < TWO_128;
    }
  }

  lemma {:induction false} SeenNext(h: Script, parent: seq<SudtBalances>, virtual: seq<SudtBalances>)
    requires parent != [] && Aligned(parent, virtual)
    ensures var n := |parent| - 1;
            && RowsTotal(h, parent) + RowsTotal(h, Seen(parent, virtual)) ==
               RowsTotal(h, parent[..n]) + RowsTotal(h, Seen(parent[..n], virtual)) + RowPair(h, parent, virtual, n)
            && RowsCapacity(parent) == RowsCapacity(parent[..n]) + parent[n].maxCapacity
  {
    hide RowsTotal, RowsCapacity;
    var n := |parent| - 1;
    assert parent == parent[..n] + [parent[n]];
    LastRow(h, parent[..n], parent[n]);
    if n < |virtual| {
      assert Seen(parent, virtual) == Seen(parent[..n], virtual) + [virtual[n]];
      LastRow(h, Seen(parent[..n], virtual), virtual[n]);
    } else {
      assert Seen(parent, virtual) == Seen(parent[..n], virtual);
    }
  }

  lemma {:induction false} MergedOfSeen(h: Script, parent: seq<SudtBalances>, virtual: seq<SudtBalances>, m: nat)
    requires m < 2 && Aligned(parent, virtual) && SmallAmounts(parent, virtual)
    ensures Claimed(h, MergedClaims(parent, virtual, 0, m)) + Claimed(h, MergedClaims(parent, virtual, 1, 1 - m)) ==
            RowsTotal(h, parent) + RowsTotal(h, Seen(parent, virtual))
    ensures CapacitySum(MergedClaims(parent, virtual, 0, m)) == RowsCapacity(parent)
            == CapacitySum(MergedClaims(parent, virtual, 1, 1 - m))
  {
    if parent != [] {
      hide MergedClaims, RowsTotal, Claimed, CapacitySum, RowsCapacity, Seen, RowPair;
      MergedOfSeen(h, parent[..|parent| - 1], virtual, m);
      MergedNext(h, parent, virtual, m);
      SeenNext(h, parent, virtual);
    } else {
      assert Seen([], virtual) == [];
    }
  }

  function VcShares(s: State, vc: State, indexMap: seq<nat>, channelCapacity: uint64, refunds: (uint64, uint64))
    : Result<(Share, Share), HandlerError>
    requires WellFormed(s) && WellFormed(vc)
  {
    match (VcPartyShare(s, vc, 0, indexMap, channelCapacity, refunds.0),
           VcPartyShare(s, vc, 1, indexMap, channelCapacity, refunds.1))
    case (Err(e), _) => Err(e)
    case (Ok(_), Err(e)) => Err(e)
    case (Ok(a), Ok(b)) => Ok((a, b))
  }

  lemma {:induction false} VcCkbShares(s: State, vc: State, indexMap: seq<nat>, channelCapacity: uint64,
                                       refunds: (uint64, uint64))
    returns (carries: nat)
    requires WellFormed(s) && WellFormed(vc) && Permutes(indexMap)
             && VcShares(s, vc, indexMap, channelCapacity, refunds).Ok?
    ensures var shares := VcShares(s, vc, indexMap, channelCapacity, refunds).value;
            shares.0.ckb + shares.1.ckb + TWO_64 * carries
              == StateCkb(s) + StateCkb(vc) + channelCapacity + refunds.0 + refunds.1
  {
    hide AssetIndex, MergeSudts;
    var a0: nat, a1: nat := CkbBalance(s, 0).value, CkbBalance(s, 1).value;
    var v0: nat, v1: nat := VcCkbBalance(vc, 0, indexMap).value, VcCkbBalance(vc, 1, indexMap).value;
    assert a0 + a1 == StateCkb(s) && v0 + v1 == StateCkb(vc);
    hide CkbBalance, VcCkbBalance, StateCkb;
    carries := Carry(a0, v0) + Carry(a1, v1) + Carry(Add64(a0, v0), channelCapacity) + Carry(Add64(a1, v1), refunds.1)
               + Carry(Add64(Add64(a0, v0), channelCapacity), refunds.0);
  }

  /** Either force close of a channel with a virtual channel pays out both channels' balances, for an index map that
      permutes the two parties and SUDTs listed alike; SUDTs that only the virtual channel lists are lost. The map
      meets the CKBytes on the virtual side and the SUDTs on the parent side, which sums do not notice. */
  lemma {:induction false} VcSettlementConserves(
    min: MinCapacity, locks: (Script, Script), s: State, vc: State, indexMap: seq<nat>, channelCapacity: uint64,
    refunds: (uint64, uint64), h: Script, shares: (Share, Share), rows: seq<SudtBalances>, vrows: seq<SudtBalances>)
    requires WellFormed(s) && WellFormed(vc) && Permutes(indexMap)
             && VcShares(s, vc, indexMap, channelCapacity, refunds) == Ok(shares)
    requires SudtsOf(s) == Ok(rows) && SudtsOf(vc) == Ok(vrows) && Aligned(rows, vrows) && SmallAmounts(rows, vrows)
    ensures var cells := SettlementCells(min, locks, shares, true);
            && SudtTotal(h, cells) + RowsTotal(h, Unseen(rows, vrows)) == RowsTotal(h, rows) + RowsTotal(h, vrows)
            && Same64(Ckb(cells) + TotalDust(min, locks, shares),
                      StateCkb(s) + StateCkb(vc) + channelCapacity + refunds.0 + refunds.1 + 2 * RowsCapacity(rows))
  {
    hide *;
    var m := MergedSharesAre(s, vc, indexMap, channelCapacity, refunds, shares);
    var carries := VcCkbShares(s, vc, indexMap, channelCapacity, refunds);
    MergedSharesPaid(min, locks, shares, rows, vrows, m, h, carries,
                     StateCkb(s) + StateCkb(vc) + channelCapacity + refunds.0 + refunds.1);
  }

  lemma {:induction false} SeenAndUnseen(rows: seq<SudtBalances>, vrows: seq<SudtBalances>)
    ensures Seen(rows, vrows) + Unseen(rows, vrows) == vrows
  {}

  lemma {:induction false} MergedSharesPaid(
    min: MinCapacity, locks: (Script, Script), shares: (Share, Share), rows: seq<SudtBalances>,
    vrows: seq<SudtBalances>, m: nat, h: Script, carries: nat, ckb: int)
    requires m < 2 && Aligned(rows, vrows) && SmallAmounts(rows, vrows)
    requires shares.0.claims == MergedClaims(rows, vrows, 0, m)
             && shares.1.claims == MergedClaims(rows, vrows, 1, 1 - m)
    requires shares.0.ckb + shares.1.ckb + TWO_64 * carries == ckb
    ensures var cells := SettlementCells(min, locks, shares, true);
            && SudtTotal(h, cells) + RowsTotal(h, Unseen(rows, vrows)) == RowsTotal(h, rows) + RowsTotal(h, vrows)
            && Same64(Ckb(cells) + TotalDust(min, locks, shares), ckb + 2 * RowsCapacity(rows))
  {
    hide *;
    SeenAndUnseen(rows, vrows);
    MergedOfSeen(h, rows, vrows, m);
    RowsConcat(h, Seen(rows, vrows), Unseen(rows, vrows));
    SharesPaid(min, locks, shares, true, h);
    Carried(Ckb(SettlementCells(min, locks, shares, true)) + TotalDust(min, locks, shares),
            carries + PartyCarry(min, locks.0, shares.0) + PartyCarry(min, locks.1, shares.1),
              ckb + 2 * RowsCapacity(rows));
  }

  lemma {:induction false} MergedSharesAre(
    s: State, vc: State, indexMap: seq<nat>, channelCapacity: uint64, refunds: (uint64, uint64), shares: (Share, Share))
    returns (m: nat)
    requires WellFormed(s) && WellFormed(vc) && Permutes(indexMap)
             && VcShares(s, vc, indexMap, channelCapacity, refunds) == Ok(shares)
    ensures m < 2 && m == indexMap[0] && SudtsOf(s).Ok? && SudtsOf(vc).Ok?
    ensures shares.0.claims == MergedClaims(SudtsOf(s).value, SudtsOf(vc).value, 0, m)
    ensures shares.1.claims == MergedClaims(SudtsOf(s).value, SudtsOf(vc).value, 1, 1 - m)
  {
    hide SudtsOf, CkbBalance, VcCkbBalance, MergedClaims;
    m := indexMap[0];
  }

  lemma {:induction false} MergedClaimAt(parent: seq<SudtBalances>, virtual: seq<SudtBalances>, part: nat, mapped: nat,
                                         k: nat)
    requires part < 2 && mapped < 2 && k < |parent|
    ensures MergedClaims(parent, virtual, part, mapped)[k] ==
            Claim(parent[k].typeScript, parent[k].maxCapacity,
                  Add128(parent[k].Of(mapped), if k < |virtual| then virtual[k].Of(part) else 0))
  {
    var n := |parent| - 1;
    if k < n {
      MergedClaimAt(parent[..n], virtual, part, mapped, k);
    }
  }

  /** Which party gets an SUDT is another matter. By the rule the CKBytes follow, party i is owed its own parent
      balance and the virtual balance of the party it is mapped to. It gets that just when the map leaves it in
      place, or the two balance sums agree. */
  lemma {:induction false} SudtGoesToItsOwner(
    parent: seq<SudtBalances>, virtual: seq<SudtBalances>, indexMap: seq<nat>, part: nat, k: nat)
    requires Permutes(indexMap) && part < 2 && k < |parent| && k < |virtual| && SmallAmounts(parent, virtual)
    ensures MergedClaims(parent, virtual, part, indexMap[part])[k].amount
            == parent[k].Of(part) + virtual[k].Of(indexMap[part]) <==>
            indexMap[part] == part || parent[k].Of(0) + virtual[k].Of(1) == parent[k].Of(1) + virtual[k].Of(0)
  {
    MergedClaimAt(parent, virtual, part, indexMap[part], k);
    assert parent[k].Both() + virtual[k].Both() < TWO_128;
  }

  /** A map that is no permutation pays the CKBytes of the virtual channel just when both its balances are equal. */
  lemma {:induction false} CkbNeedsPermutation(vc: State, m0: nat, m1: nat)
    requires WellFormed(vc) && m0 < 2 && m1 < 2 && CkbBalance(vc, 0).Ok? && CkbBalance(vc, 1).Ok?
    ensures VcCkbBalance(vc, 0, [m0, m1]).Ok? && VcCkbBalance(vc, 1, [m0, m1]).Ok?
    ensures VcCkbBalance(vc, 0, [m0, m1]).value + VcCkbBalance(vc, 1, [m0, m1]).value == StateCkb(vc) <==>
            m0 != m1 || CkbBalance(vc, 0).value == CkbBalance(vc, 1).value
  {
    assert [m0, m1][0] == m0 && [m0, m1][1] == m1;
    assert CkbBalance(vc, 0).value + CkbBalance(vc, 1).value == StateCkb(vc);
    assert AssetIndex(vc.assets, CKBytes) == None ==> CkbBalance(vc, 0).value == CkbBalance(vc, 1).value;
  }

  /** Nor does a map that is no permutation pay an SUDT in full, unless the parent balances are equal. */
  lemma {:induction false} SudtNeedsPermutation(parent: seq<SudtBalances>, virtual: seq<SudtBalances>, m0: nat, m1: nat,
                                                k: nat)
    requires m0 < 2 && m1 < 2 && k < |parent| && k < |virtual| && parent[k].Both() + virtual[k].Both() < TWO_128
    ensures (MergedClaims(parent, virtual, 0, m0)[k].amount as int)
            + (MergedClaims(parent, virtual, 1, m1)[k].amount as int) ==
            parent[k].Both() + virtual[k].Both() <==>
            m0 != m1 || parent[k].dist0 == parent[k].dist1
  {
    MergedClaimAt(parent, virtual, 0, m0, k);
    MergedClaimAt(parent, virtual, 1, m1, k);
  }
}

/** encoding/channel_state.go and updateState of client/ckbclient.go: two-party channel states, what is written
    on chain for them, and how an on-chain state is read back. */
module ChannelStates {
  import opened Words
  import opened Wrappers
  import opened Cells
  import LE = LittleEndian

  datatype Asset = CKBytes | Sudt(typeScript: Script, maxCapacity: uint64) | Eth(ethAsset: nat) | Invalid

  /** Both participants' balances of one asset. */
  datatype Row = Row(bal0: int, bal1: int) {
    function Of(part: nat): int
      requires part < 2
    {
      if part == 0 then bal0 else bal1
    }
  }

  /** Which parties of a sub-channel stand for which of this one is kept off chain only. */
  datatype SubAlloc = SubAlloc(id: nat, bals: seq<int>, indexMap: seq<nat>)

  datatype State = State(id: nat, version: uint64, isFinal: bool, assets: seq<Asset>, balances: seq<Row>,
                         locked: seq<SubAlloc>)

  /** An invalid asset equals nothing, not even itself. */
  predicate SameAsset(a: Asset, b: Asset) {
    a != Invalid && a == b
  }

  predicate WellFormed(s: State) {
    |s.balances| == |s.assets|
  }

  predicate Distinct(assets: seq<Asset>) {
    forall i, j :: 0 <= i < j < |assets| ==> !SameAsset(assets[i], assets[j])
  }

  /** The first index of an asset. */
  function AssetIndex(assets: seq<Asset>, a: Asset): (idx: Option<nat>)
    ensures idx.Some? ==> idx.value < |assets| && SameAsset(a, assets[idx.value])
    ensures idx.Some? ==> forall j :: 0 <= j < idx.value ==> !SameAsset(a, assets[j])
    ensures idx.None? ==> forall j :: 0 <= j < |assets| ==> !SameAsset(a, assets[j])
  {
    if assets == [] then None
    else if SameAsset(a, assets[0]) then Some(0)
    else match AssetIndex(assets[1..], a)
      case None => None
      case Some(i) => Some(i + 1)
  }

  /** Balances are looked up by asset, so a repeated asset would get the first one's balances. */
  function Balances(s: State, i: nat): Row
    requires WellFormed(s) && i < |s.assets| && s.assets[i] != Invalid
  {
    var idx := AssetIndex(s.assets, s.assets[i]);
    s.balances[idx.value]
  }

  lemma {:induction false} OwnRow(s: State, i: nat)
    requires WellFormed(s) && i < |s.assets| && s.assets[i] != Invalid && Distinct(s.assets)
    ensures Balances(s, i) == s.balances[i]
  {
    var idx := AssetIndex(s.assets, s.assets[i]).value;
    assert SameAsset(s.assets[i], s.assets[i]);
    assert SameAsset(s.assets[idx], s.assets[i]);
    assert idx <= i;
  }

  // ---------- packing ----------

  datatype PackError = InvalidAsset | NotUint64 | BadAmount(cause: LE.AmountError) | LockedEth | LockedRows
      | AssetNotFound

  datatype PackedRow =
    | CkbRow(ckb0: uint64, ckb1: uint64)
    | SudtRow(typeScript: Script, maxCapacity: uint64, nth0: Bytes, nth1: Bytes)
    | EthRow(ethAsset: nat, nth0: Bytes, nth1: Bytes)

  datatype PackedSubAlloc = PackedSubAlloc(id: nat, ckbytes: PackedRow, sudts: seq<PackedRow>)

  datatype PackedState = PackedState(id: nat, version: uint64, isFinal: bool, rows: seq<PackedRow>,
                                     locked: seq<PackedSubAlloc>)

  function PackCKByteDistribution(r: Row): Result<PackedRow, PackError> {
    if 0 <= r.bal0 < TWO_64 && 0 <= r.bal1 < TWO_64 then Ok(CkbRow(r.bal0, r.bal1)) else Err(NotUint64)
  }

  function PackAmounts(r: Row): Result<(Bytes, Bytes), PackError> {
    match (LE.PackUint128(r.bal0), LE.PackUint128(r.bal1))
    case (Err(e), _) => Err(BadAmount(e))
    case (Ok(_), Err(e)) => Err(BadAmount(e))
    case (Ok(x), Ok(y)) => Ok((x, y))
  }

  function PackRow(a: Asset, r: Row): Result<PackedRow, PackError> {
    match a
    case CKBytes => PackCKByteDistribution(r)
    case Invalid => Err(InvalidAsset)
    case Eth(id) =>
      (match PackAmounts(r)
       case Err(e) => Err(e)
       case Ok(p) => Ok(EthRow(id, p.0, p.1)))
    case Sudt(script, max) =>
      match PackAmounts(r)
      case Err(e) => Err(e)
      case Ok(p) => Ok(SudtRow(script, max, p.0, p.1))
  }

  function PackAsset(s: State, i: nat): Result<PackedRow, PackError>
    requires WellFormed(s) && i < |s.assets|
  {
    if s.assets[i] == Invalid then Err(InvalidAsset) else PackRow(s.assets[i], Balances(s, i))
  }

  /** The rows of the first n assets, or the first error. */
  function PackRows(s: State, n: nat): (r: Result<seq<PackedRow>, PackError>)
    requires WellFormed(s) && n <= |s.assets|
    ensures r.Ok? ==> |r.value| == n
  {
    if n == 0 then Ok([])
    else match PackRows(s, n - 1)
      case Err(e) => Err(e)
      case Ok(rows) =>
        match PackAsset(s, n - 1)
        case Err(e) => Err(e)
        case Ok(row) => Ok(rows + [row])
  }

  /** A sub-allocation holds one total per asset; it is written as party 0's share. */
  function PackLockedRow(a: Asset, total: int): Result<PackedRow, PackError> {
    if a.Eth? then Err(LockedEth) else PackRow(a, Row(total, 0))
  }

  function PackSubRows(sa: SubAlloc, assets: seq<Asset>, n: nat): Result<PackedSubAlloc, PackError>
    requires |sa.bals| == |assets| && n <= |assets|
  {
    if n == 0 then Ok(PackedSubAlloc(sa.id, CkbRow(0, 0), []))
    else match PackSubRows(sa, assets, n - 1)
      case Err(e) => Err(e)
      case Ok(p) =>
        match PackLockedRow(assets[n - 1], sa.bals[n - 1])
        case Err(e) => Err(e)
        case Ok(row) => if assets[n - 1].CKBytes? then Ok(p.(ckbytes := row)) else Ok(p.(sudts := p.sudts + [row]))
  }

  function PackSubAlloc(sa: SubAlloc, assets: seq<Asset>): Result<PackedSubAlloc, PackError> {
    if |sa.bals| != |assets| then Err(LockedRows) else PackSubRows(sa, assets, |assets|)
  }

  const DEFAULT_SUB_ALLOC := PackedSubAlloc(0, CkbRow(0, 0), [])

  function PackLocked(locked: seq<SubAlloc>, assets: seq<Asset>): (r: Result<seq<PackedSubAlloc>, PackError>)
    ensures r.Ok? ==> |r.value| == |locked|
  {
    if locked == [] then Ok([])
    else match PackLocked(locked[..|locked| - 1], assets)
      case Err(e) => Err(e)
      case Ok(ps) =>
        match PackSubAlloc(locked[|locked| - 1], assets)
        case Err(e) => Err(e)
        case Ok(p) => Ok(ps + [p])
  }

  function PackedBalances(s: State): Result<(seq<PackedRow>, seq<PackedSubAlloc>), PackError>
    requires WellFormed(s)
  {
    match PackRows(s, |s.assets|)
    case Err(e) => Err(e)
    case Ok(rows) =>
      match PackLocked(s.locked, s.assets)
      case Err(e) => Err(e)
      case Ok(ps) => Ok((rows, if s.locked == [] then [DEFAULT_SUB_ALLOC] else ps))
  }

  /** The builder loop over the assets. */
  method PackAssets(s: State) returns (r: Result<seq<PackedRow>, PackError>)
    requires WellFormed(s)
    ensures r == PackRows(s, |s.assets|)
  {
    hide PackAsset;
    var rows: seq<PackedRow> := [];
    for i := 0 to |s.assets|
      invariant PackRows(s, i) == Ok(rows)
    {
      var row := PackAsset(s, i);
      if row.Err? {
        FirstRowError(s, i + 1);
        return Err(row.error);
      }
      rows := rows + [row.value];
    }
    r := Ok(rows);
  }

  /** The builder loop over the locked sub-allocations. */
  method PackLockedFunds(s: State) returns (r: Result<seq<PackedSubAlloc>, PackError>)
    ensures r == PackLocked(s.locked, s.assets)
  {
    hide PackSubAlloc;
    var locked: seq<PackedSubAlloc> := [];
    for i := 0 to |s.locked|
      invariant PackLocked(s.locked[..i], s.assets) == Ok(locked)
    {
      assert s.locked[..i + 1][..i] == s.locked[..i];
      var p := PackSubAlloc(s.locked[i], s.assets);
      if p.Err? {
        FirstLockedError(s.locked, s.assets, i + 1);
        return Err(p.error);
      }
      locked := locked + [p.value];
    }
    assert s.locked[..|s.locked|] == s.locked;
    r := Ok(locked);
  }

  method PackBalances(s: State) returns (r: Result<(seq<PackedRow>, seq<PackedSubAlloc>), PackError>)
    requires WellFormed(s)
    ensures r == PackedBalances(s)
  {
    hide PackRows, PackLocked;
    var rows := PackAssets(s);
    if rows.Err? {
      return Err(rows.error);
    }
    var locked := PackLockedFunds(s);
    if locked.Err? {
      return Err(locked.error);
    }
    r := Ok((rows.value, if |s.locked| == 0 then [DEFAULT_SUB_ALLOC] else locked.value));
  }

  lemma {:induction false} FirstRowError(s: State, n: nat)
    requires WellFormed(s) && n <= |s.assets| && PackRows(s, n).Err?
    ensures PackRows(s, |s.assets|) == Err(PackRows(s, n).error)
    decreases |s.assets| - n
  {
    if n < |s.assets| {
      FirstRowError(s, n + 1);
    }
  }

  lemma {:induction false} FirstLockedError(locked: seq<SubAlloc>, assets: seq<Asset>, n: nat)
    requires n <= |locked| && PackLocked(locked[..n], assets).Err?
    ensures PackLocked(locked, assets) == Err(PackLocked(locked[..n], assets).error)
    decreases |locked| - n
  {
    if n < |locked| {
      assert locked[..n + 1][..n] == locked[..n];
      FirstLockedError(locked, assets, n + 1);
    } else {
      assert locked[..n] == locked;
    }
  }

  function PackChannelState(s: State): Result<PackedState, PackError>
    requires WellFormed(s)
  {
    match PackedBalances(s)
    case Err(e) => Err(e)
    case Ok(b) => Ok(PackedState(s.id, s.version, s.isFinal, b.0, b.1))
  }

  // ---------- what is committed to ----------

  function UnpackAmount(b: Bytes): nat {
    if |b| >= 16 then LE.UnpackUint128(b).Int() else 0
  }

  function UnpackRow(p: PackedRow): (Asset, Row) {
    match p
    case CkbRow(x, y) => (CKBytes, Row(x, y))
    case SudtRow(script, max, x, y) => (Sudt(script, max), Row(UnpackAmount(x), UnpackAmount(y)))
    case EthRow(id, x, y) => (Eth(id), Row(UnpackAmount(x), UnpackAmount(y)))
  }

  lemma {:induction false} RowRoundTrip(a: Asset, r: Row)
    ensures PackRow(a, r).Ok? ==> UnpackRow(PackRow(a, r).value) == (a, r)
    ensures PackRow(a, r).Ok? <==>
            match a
            case Invalid => false
            case CKBytes => 0 <= r.bal0 < TWO_64 && 0 <= r.bal1 < TWO_64
            case _ => 0 <= r.bal0 < TWO_128 && 0 <= r.bal1 < TWO_128
  {
    LE.PackUnpack(r.bal0);
    LE.PackUnpack(r.bal1);
  }

  /** Row i of a packed state is asset i with its balances. */
  lemma {:induction false} PackedRowAt(s: State, n: nat, i: nat)
    requires WellFormed(s) && Distinct(s.assets) && i < n <= |s.assets| && PackRows(s, n).Ok?
    ensures s.assets[i] != Invalid && PackRow(s.assets[i], s.balances[i]) == Ok(PackRows(s, n).value[i])
    ensures UnpackRow(PackRows(s, n).value[i]) == (s.assets[i], s.balances[i])
  {
    if i == n - 1 {
      OwnRow(s, i);
      RowRoundTrip(s.assets[i], s.balances[i]);
    } else {
      PackedRowAt(s, n - 1, i);
    }
  }

  /** The packed balances determine assets and balances: no two states share them. */
  lemma {:induction false} RowsDetermineState(s: State, t: State)
    requires WellFormed(s) && WellFormed(t) && Distinct(s.assets) && Distinct(t.assets)
    requires PackRows(s, |s.assets|).Ok? && PackRows(s, |s.assets|) == PackRows(t, |t.assets|)
    ensures s.assets == t.assets && s.balances == t.balances
  {
    forall i | 0 <= i < |s.assets| ensures s.assets[i] == t.assets[i] && s.balances[i] == t.balances[i] {
      PackedRowAt(s, |s.assets|, i);
      PackedRowAt(t, |t.assets|, i);
    }
  }

  lemma {:induction false} LockedRowDetermines(a: Asset, x: int, y: int)
    requires PackLockedRow(a, x).Ok? && PackLockedRow(a, x) == PackLockedRow(a, y)
    ensures x == y
  {
    RowRoundTrip(a, Row(x, 0));
    RowRoundTrip(a, Row(y, 0));
  }

  /** The last row of a packed sub-allocation, and what it was added to. */
  lemma {:induction false} LastSubRow(sa: SubAlloc, assets: seq<Asset>, k: nat)
    requires |sa.bals| == |assets| && k < |assets| && Distinct(assets) && PackSubRows(sa, assets, k + 1).Ok?
    ensures PackSubRows(sa, assets, k).Ok? && PackLockedRow(assets[k], sa.bals[k]).Ok?
    ensures var p, before, row := PackSubRows(sa, assets, k + 1).value, PackSubRows(sa, assets, k).value,
            PackLockedRow(assets[k], sa.bals[k]).value;
            && p.id == before.id
            && if assets[k].CKBytes? then p.ckbytes == row && before.ckbytes == CkbRow(0, 0) && p.sudts == before.sudts
               else p.ckbytes == before.ckbytes && p.sudts == before.sudts + [row]
  {
    hide PackLockedRow;
    if assets[k].CKBytes? {
      CKBytesUnset(sa, assets, k, k);
    }
  }

  /** A packed sub-allocation gives back every locked total. */
  lemma {:induction false} SubRowsDetermine(a: SubAlloc, b: SubAlloc, assets: seq<Asset>, n: nat)
    requires |a.bals| == |b.bals| == |assets| && n <= |assets| && Distinct(assets)
    requires PackSubRows(a, assets, n).Ok? && PackSubRows(a, assets, n) == PackSubRows(b, assets, n)
    ensures a.id == b.id && a.bals[..n] == b.bals[..n]
  {
    hide *;
    if n == 0 {
      NoSubRows(a, assets);
      NoSubRows(b, assets);
    } else {
      var k := n - 1;
      SubRowsBefore(a, b, assets, k);
      SubRowsDetermine(a, b, assets, k);
      assert a.bals[..n] == a.bals[..k] + [a.bals[k]] && b.bals[..n] == b.bals[..k] + [b.bals[k]];
    }
  }

  lemma {:induction false} NoSubRows(sa: SubAlloc, assets: seq<Asset>)
    requires |sa.bals| == |assets|
    ensures PackSubRows(sa, assets, 0) == Ok(PackedSubAlloc(sa.id, CkbRow(0, 0), []))
  {}

  /** Equal rows come from equal rows before them and equal last totals. */
  lemma {:induction false} SubRowsBefore(a: SubAlloc, b: SubAlloc, assets: seq<Asset>, k: nat)
    requires |a.bals| == |b.bals| == |assets| && k < |assets| && Distinct(assets)
    requires PackSubRows(a, assets, k + 1).Ok? && PackSubRows(a, assets, k + 1) == PackSubRows(b, assets, k + 1)
    ensures PackSubRows(a, assets, k).Ok? && PackSubRows(a, assets, k) == PackSubRows(b, assets, k)
            && a.bals[k] == b.bals[k]
  {
    hide *;
    LastSubRow(a, assets, k);
    LastSubRow(b, assets, k);
    var p, q := PackSubRows(a, assets, k).value, PackSubRows(b, assets, k).value;
    if !assets[k].CKBytes? {
      var rows := PackSubRows(a, assets, k + 1).value.sudts;
      assert p.sudts == rows[..|rows| - 1] == q.sudts && rows[|rows| - 1] == PackLockedRow(assets[k], a.bals[k]).value;
    }
    assert p == q;
    LockedRowDetermines(assets[k], a.bals[k], b.bals[k]);
  }

  /** What a packed sub-allocation says: the locked totals as shares of party 0, those of the SUDTs in asset order. */
  function UnpackRows(rows: seq<PackedRow>): (r: seq<(Asset, Row)>)
    ensures |r| == |rows|
  {
    if rows == [] then [] else UnpackRows(rows[..|rows| - 1]) + [UnpackRow(rows[|rows| - 1])]
  }

  function SudtTotals(sa: SubAlloc, assets: seq<Asset>, n: nat): seq<(Asset, Row)>
    requires |sa.bals| == |assets| && n <= |assets|
  {
    if n == 0 then []
    else
      SudtTotals(sa, assets, n - 1) +
      if assets[n - 1].CKBytes? then [] else [(assets[n - 1], Row(sa.bals[n - 1], 0))]
  }

  /** What can be locked of an asset: nothing of an ETH asset or an invalid one. */
  predicate Lockable(a: Asset, total: int) {
    (a.CKBytes? && 0 <= total < TWO_64) || (a.Sudt? && 0 <= total < TWO_128)
  }

  lemma {:induction false} LockedRowReadsBack(a: Asset, total: int)
    ensures PackLockedRow(a, total).Ok? <==> Lockable(a, total)
    ensures PackLockedRow(a, total).Ok? ==> UnpackRow(PackLockedRow(a, total).value) == (a, Row(total, 0))
  {
    RowRoundTrip(a, Row(total, 0));
  }

  lemma {:induction false} SubRowsReadBack(sa: SubAlloc, assets: seq<Asset>, n: nat)
    requires |sa.bals| == |assets| && n <= |assets| && Distinct(assets)
    ensures PackSubRows(sa, assets, n).Ok? <==> forall i :: 0 <= i < n ==> Lockable(assets[i], sa.bals[i])
    ensures PackSubRows(sa, assets, n).Ok? ==>
              var p := PackSubRows(sa, assets, n).value;
              && p.id == sa.id && UnpackRows(p.sudts) == SudtTotals(sa, assets, n)
              && (forall i :: 0 <= i < n && assets[i] == CKBytes ==>
                  UnpackRow(p.ckbytes) == (CKBytes, Row(sa.bals[i], 0)))
              && (CKBytes !in assets[..n] ==> p.ckbytes == CkbRow(0, 0))
  {
    hide PackLockedRow, UnpackRow, Lockable, Distinct;
    if n > 0 {
      var k := n - 1;
      SubRowsReadBack(sa, assets, k);
      LockedRowReadsBack(assets[k], sa.bals[k]);
      assert assets[..n] == assets[..k] + [assets[k]];
      if assets[k].CKBytes? {
        OnlyOne(assets, k);
      }
    }
  }

  lemma {:induction false} OnlyOne(assets: seq<Asset>, k: nat)
    requires Distinct(assets) && k < |assets| && assets[k] == CKBytes
    ensures forall i :: 0 <= i < |assets| && i != k ==> assets[i] != CKBytes
    ensures CKBytes !in assets[..k]
  {
    forall i | 0 <= i < |assets| && i != k ensures assets[i] != CKBytes {
      assert !SameAsset(assets[if i < k then i else k], assets[if i < k then k else i]);
    }
  }

  /** A sub-allocation packs exactly if it holds as many totals as there are assets, all of them lockable, and it reads
      back as those totals. */
  lemma {:induction false} SubAllocReadsBack(sa: SubAlloc, assets: seq<Asset>)
    requires Distinct(assets)
    ensures PackSubAlloc(sa, assets).Ok? <==>
            |sa.bals| == |assets| && forall i :: 0 <= i < |assets| ==> Lockable(assets[i], sa.bals[i])
    ensures PackSubAlloc(sa, assets).Ok? ==>
              var p := PackSubAlloc(sa, assets).value;
              && p.id == sa.id && UnpackRows(p.sudts) == SudtTotals(sa, assets, |assets|)
              && (forall i :: 0 <= i < |assets| && assets[i] == CKBytes ==>
                    UnpackRow(p.ckbytes) == (CKBytes, Row(sa.bals[i], 0)))
              && (CKBytes !in assets ==> p.ckbytes == CkbRow(0, 0))
  {
    if |sa.bals| == |assets| {
      SubRowsReadBack(sa, assets, |assets|);
      assert assets[..|assets|] == assets;
    }
  }

  /** In the encoded state, sub-allocation i is the packed one; a state without any has the default one. */
  lemma {:induction false} LockedReadsBack(s: State, i: nat)
    requires WellFormed(s) && PackChannelState(s).Ok?
    ensures var locked := PackChannelState(s).value.locked;
            && (s.locked == [] ==> locked == [PackedSubAlloc(0, CkbRow(0, 0), [])])
            && (i < |s.locked| ==> |locked| == |s.locked| && PackSubAlloc(s.locked[i], s.assets) == Ok(locked[i]))
  {
    if i < |s.locked| {
      PackedLockedAt(s.locked, s.assets, i);
    }
  }

  lemma {:induction false} PackedLockedAt(locked: seq<SubAlloc>, assets: seq<Asset>, i: nat)
    requires PackLocked(locked, assets).Ok? && i < |locked|
    ensures PackSubAlloc(locked[i], assets) == Ok(PackLocked(locked, assets).value[i])
  {
    hide PackSubAlloc;
    if i < |locked| - 1 {
      PackedLockedAt(locked[..|locked| - 1], assets, i);
    }
  }

  lemma {:induction false} CKBytesUnset(sa: SubAlloc, assets: seq<Asset>, k: nat, n: nat)
    requires |sa.bals| == |assets| && n <= k < |assets| && Distinct(assets) && assets[k] == CKBytes
             && PackSubRows(sa, assets, n).Ok?
    ensures PackSubRows(sa, assets, n).value.ckbytes == CkbRow(0, 0)
  {
    if n > 0 {
      CKBytesUnset(sa, assets, k, n - 1);
      assert !SameAsset(assets[n - 1], assets[k]);
    }
  }

  predicate SameSubAlloc(a: SubAlloc, b: SubAlloc) {
    a.id == b.id && a.bals == b.bals
  }

  /** Equal but for index maps. */
  predicate SameLocked(a: seq<SubAlloc>, b: seq<SubAlloc>) {
    |a| == |b| && forall i :: 0 <= i < |a| ==> SameSubAlloc(a[i], b[i])
  }

  /** Packed sub-allocations are equal exactly if ids and totals are: index maps are not packed. */
  lemma {:induction false} LockedDetermine(a: seq<SubAlloc>, b: seq<SubAlloc>, assets: seq<Asset>)
    requires Distinct(assets) && PackLocked(a, assets).Ok?
    ensures PackLocked(a, assets) == PackLocked(b, assets) <==> SameLocked(a, b)
  {
    if a == [] {
      assert SameLocked(a, b) <==> b == [];
    } else if |a| == |b| {
      var n := |a| - 1;
      LockedDetermine(a[..n], b[..n], assets);
      SubAllocDetermines(a[n], b[n], assets);
      LastPacked(a, assets);
      LastPacked(b, assets);
      hide PackLocked, PackSubAlloc, Distinct;
      assert SameLocked(a, b) <==> SameLocked(a[..n], b[..n]) && SameSubAlloc(a[n], b[n]);
    }
  }

  lemma {:induction false} LastPacked(a: seq<SubAlloc>, assets: seq<Asset>)
    requires a != []
    ensures var n := |a| - 1;
            && (PackLocked(a, assets).Ok? <==> PackLocked(a[..n], assets).Ok? && PackSubAlloc(a[n], assets).Ok?)
            && (PackLocked(a, assets).Ok? ==>
                  && PackLocked(a, assets).value[..n] == PackLocked(a[..n], assets).value
                  && PackLocked(a, assets).value[n] == PackSubAlloc(a[n], assets).value)
  {
    hide PackSubAlloc;
  }

  lemma {:induction false} SubAllocDetermines(a: SubAlloc, b: SubAlloc, assets: seq<Asset>)
    requires Distinct(assets)
    ensures SameSubAlloc(a, b) ==> PackSubAlloc(a, assets) == PackSubAlloc(b, assets)
    ensures PackSubAlloc(a, assets).Ok? && PackSubAlloc(a, assets) == PackSubAlloc(b, assets) ==> SameSubAlloc(a, b)
  {
    if SameSubAlloc(a, b) && |a.bals| == |assets| {
      SameSubRows(a, b, assets, |assets|);
    }
    if PackSubAlloc(a, assets).Ok? && PackSubAlloc(a, assets) == PackSubAlloc(b, assets) {
      SubRowsDetermine(a, b, assets, |assets|);
      assert a.bals[..|assets|] == a.bals && b.bals[..|assets|] == b.bals;
    }
  }

  lemma {:induction false} SameSubRows(a: SubAlloc, b: SubAlloc, assets: seq<Asset>, n: nat)
    requires SameSubAlloc(a, b) && |a.bals| == |assets| && n <= |assets|
    ensures PackSubRows(a, assets, n) == PackSubRows(b, assets, n)
  {
    if n > 0 {
      SameSubRows(a, b, assets, n - 1);
    }
  }

  /** A sub-allocation that says nothing: id 0 and nothing locked, in a channel without assets or in CKBytes alone. */
  predicate DefaultLike(sa: SubAlloc, assets: seq<Asset>) {
    sa.id == 0 && |sa.bals| == |assets| && (assets == [] || assets == [CKBytes]) && forall i ::
        0 <= i < |sa.bals| ==> sa.bals[i] == 0
  }

  lemma {:induction false} NoSudtsMeansCKBytes(sa: SubAlloc, assets: seq<Asset>, n: nat)
    requires |sa.bals| == |assets| && n <= |assets| && PackSubRows(sa, assets, n).Ok?
    ensures PackSubRows(sa, assets, n).value.id == sa.id
    ensures PackSubRows(sa, assets, n).value.sudts == [] ==> forall i :: 0 <= i < n ==> assets[i] == CKBytes
  {
    if n > 0 {
      hide PackLockedRow;
      NoSudtsMeansCKBytes(sa, assets, n - 1);
    }
  }

  lemma {:induction false} OnlyCKBytes(assets: seq<Asset>)
    requires forall i :: 0 <= i < |assets| ==> assets[i] == CKBytes
    ensures Distinct(assets) ==> assets == [] || assets == [CKBytes]
  {
    if |assets| > 1 {
      assert SameAsset(assets[0], assets[1]);
    }
  }

  lemma {:induction false} PacksToDefault(sa: SubAlloc, assets: seq<Asset>)
    requires Distinct(assets)
    ensures PackSubAlloc(sa, assets) == Ok(DEFAULT_SUB_ALLOC) <==> DefaultLike(sa, assets)
  {
    if |sa.bals| == |assets| {
      NoSubRows(sa, assets);
      if assets == [CKBytes] {
        assert PackSubRows(sa, assets, 1) ==
               if 0 <= sa.bals[0] < TWO_64 then Ok(PackedSubAlloc(sa.id, CkbRow(sa.bals[0], 0), []))
               else Err(NotUint64);
      } else if PackSubAlloc(sa, assets) == Ok(DEFAULT_SUB_ALLOC) {
        NoSudtsMeansCKBytes(sa, assets, |assets|);
        OnlyCKBytes(assets);
      }
    }
  }

  lemma {:induction false} SameRows(s: State, t: State, n: nat)
    requires WellFormed(s) && WellFormed(t) && s.assets == t.assets && s.balances == t.balances && n <= |s.assets|
    ensures PackRows(s, n) == PackRows(t, n)
  {
    if n > 0 {
      SameRows(s, t, n - 1);
    }
  }

  /** What is written for the sub-allocations: the default one if there are none. */
  function WrittenLocked(s: State): Result<seq<PackedSubAlloc>, PackError> {
    if s.locked == [] then Ok([DEFAULT_SUB_ALLOC]) else PackLocked(s.locked, s.assets)
  }

  predicate SaysNothing(locked: seq<SubAlloc>, assets: seq<Asset>) {
    locked == [] || (|locked| == 1 && DefaultLike(locked[0], assets))
  }

  lemma {:induction false} WrittenAsDefault(s: State)
    requires Distinct(s.assets)
    ensures WrittenLocked(s) == Ok([DEFAULT_SUB_ALLOC]) <==> SaysNothing(s.locked, s.assets)
  {
    if s.locked != [] {
      var n := |s.locked| - 1;
      LastPacked(s.locked, s.assets);
      PacksToDefault(s.locked[n], s.assets);
      if n == 0 {
        assert s.locked[..0] == [] && PackLocked([], s.assets) == Ok([]);
        assert WrittenLocked(s).Ok? ==> WrittenLocked(s).value == [WrittenLocked(s).value[0]];
      }
    }
  }

  lemma {:induction false} WrittenDetermines(s: State, t: State)
    requires s.assets == t.assets && Distinct(s.assets) && WrittenLocked(s).Ok?
    ensures WrittenLocked(s) == WrittenLocked(t) <==>
            SameLocked(s.locked, t.locked) || (SaysNothing(s.locked, s.assets) && SaysNothing(t.locked, t.assets))
  {
    WrittenAsDefault(s);
    WrittenAsDefault(t);
    if s.locked != [] && t.locked != [] {
      LockedDetermine(s.locked, t.locked, s.assets);
    }
  }

  /** The on-chain encoding, which signatures and integrity checks compare, commits to the state: encodings are equal
      exactly if the states are, index maps of sub-allocations aside - or if they differ in their sub-allocations only
      and neither has one that says anything. */
  lemma {:induction false} EncodingCommits(s: State, t: State)
    requires WellFormed(s) && WellFormed(t) && Distinct(s.assets) && Distinct(t.assets) && PackChannelState(s).Ok?
    ensures PackChannelState(s) == PackChannelState(t) <==>
            && s.(locked := t.locked) == t
            && (SameLocked(s.locked, t.locked) || (SaysNothing(s.locked, s.assets) && SaysNothing(t.locked, t.assets)))
  {
    EncodingIs(s);
    EncodingIs(t);
    if s.assets == t.assets && s.balances == t.balances {
      SameRows(s, t, |s.assets|);
      WrittenDetermines(s, t);
    }
    hide PackChannelState, PackRows, WrittenLocked, SameLocked, SaysNothing;
    if PackChannelState(s) == PackChannelState(t) {
      RowsDetermineState(s, t);
    }
  }

  lemma {:induction false} EncodingIs(s: State)
    requires WellFormed(s)
    ensures PackChannelState(s).Ok? <==> PackRows(s, |s.assets|).Ok? && WrittenLocked(s).Ok?
    ensures PackChannelState(s).Ok? ==>
              PackChannelState(s).value
                == PackedState(s.id, s.version, s.isFinal, PackRows(s, |s.assets|).value, WrittenLocked(s).value)
  {
    hide PackRows, PackLocked;
    assert s.locked == [] ==> PackLocked(s.locked, s.assets) == Ok([]) by { NoneLocked(s.assets); }
  }

  lemma {:induction false} NoneLocked(assets: seq<Asset>)
    ensures PackLocked([], assets) == Ok([])
  {}

  /** The exception is real for every packable state without assets or in CKBytes alone. */
  lemma {:induction false} DefaultSubAllocCollides(s: State, indexMap: seq<nat>)
    requires WellFormed(s) && s.locked == [] && (s.assets == [] || s.assets == [CKBytes]) && PackChannelState(s).Ok?
    ensures var t := s.(locked := [SubAlloc(0, if s.assets == [] then [] else [0], indexMap)]);
            s != t && PackChannelState(s) == PackChannelState(t)
  {
    EncodingCommits(s, s.(locked := [SubAlloc(0, if s.assets == [] then [] else [0], indexMap)]));
  }

  // ---------- updateState ----------

  /** big.NewInt(int64(x)): amounts from 2^63 on come out negative. */
  function SignedInt64(x: uint64): int {
    if x < 0x8000_0000_0000_0000 then x else x - TWO_64
  }

  predicate RowFits(a: Asset, p: PackedRow) {
    match a
    case CKBytes => p.CkbRow?
    case Sudt(_, _) => p.SudtRow? && |p.nth0| >= 16 && |p.nth1| >= 16
    case _ => true
  }

  /** The on-chain rows are of the kinds the assets call for; otherwise the molecule accessors panic. */
  predicate Fits(assets: seq<Asset>, p: PackedState) {
    |p.rows| == |assets| && forall i :: 0 <= i < |assets| ==> RowFits(assets[i], p.rows[i])
  }

  /** Balances of asset i after updateState: the first CKBytes entry and all SUDTs are taken over, ETH is kept. */
  function UpdatedRow(s: State, p: PackedState, i: nat): Row
    requires WellFormed(s) && Fits(s.assets, p) && i < |s.assets|
  {
    match s.assets[i]
    case CKBytes =>
      if AssetIndex(s.assets, CKBytes) == Some(i) then Row(SignedInt64(p.rows[i].ckb0), SignedInt64(p.rows[i].ckb1))
      else s.balances[i]
    case Sudt(_, _) => Row(LE.UnpackUint128(p.rows[i].nth0).Int(), LE.UnpackUint128(p.rows[i].nth1).Int())
    case _ => s.balances[i]
  }

  function Updated(s: State, p: PackedState): State
    requires WellFormed(s) && Fits(s.assets, p)
  {
    s.(version := if s.version < p.version then p.version else s.version, isFinal := p.isFinal,
       balances := seq(|s.assets|, i requires 0 <= i < |s.assets| => UpdatedRow(s, p, i)))
  }

  class ChannelState {
    const id: nat
    const assets: seq<Asset>
    const locked: seq<SubAlloc>
    var version: uint64
    var isFinal: bool
    var balances: seq<Row>

    constructor (s: State)
      ensures Value() == s
    {
      id, assets, locked := s.id, s.assets, s.locked;
      version, isFinal, balances := s.version, s.isFinal, s.balances;
    }

    function Value(): State
      reads this
    {
      State(id, version, isFinal, assets, balances, locked)
    }

    /** Overwrites this state with the newest on-chain balances. */
    method UpdateState(p: PackedState) returns (error: Option<PackError>)
      requires WellFormed(Value()) && Fits(assets, p)
      modifies this
      ensures error == Some(AssetNotFound) <==> CKBytes !in assets
      ensures error == Some(InvalidAsset) <==> CKBytes in assets && Invalid in assets
      ensures error == None <==> CKBytes in assets && Invalid !in assets
      ensures error == None ==> Value() == Updated(old(Value()), p)
      ensures error == Some(AssetNotFound) ==> balances == old(balances)
    {
      hide LE.UnpackUint128;
      ghost var was := Value();
      if version < p.version {
        version := p.version;
      }
      isFinal := p.isFinal;
      var assetIdx := AssetIndex(assets, CKBytes);
      if assetIdx == None {
        assert forall j :: 0 <= j < |assets| ==> assets[j] != CKBytes;
        return Some(AssetNotFound);
      }
      var k := assetIdx.value;
      assert assets[k] == CKBytes && RowFits(assets[k], p.rows[k]);
      balances := balances[k := Row(SignedInt64(p.rows[k].ckb0), SignedInt64(p.rows[k].ckb1))];
      error := UpdateSudts(p);
      if error == None {
        forall j | 0 <= j < |assets| ensures balances[j] == UpdatedRow(was, p, j) {
          assert assets[j] != Invalid;
        }
        assert balances == Updated(was, p).balances;
      }
    }

    /** The rows of all SUDTs, up to an invalid asset. */
    method UpdateSudts(p: PackedState) returns (error: Option<PackError>)
      requires WellFormed(Value()) && Fits(assets, p)
      modifies this`balances
      ensures error == if Invalid in assets then Some(InvalidAsset) else None
      ensures |balances| == |assets|
      ensures error == None ==> forall j :: 0 <= j < |assets| ==>
                balances[j] == if assets[j].Sudt? then UpdatedRow(old(Value()), p, j) else old(balances)[j]
    {
      hide LE.UnpackUint128;
      for i := 0 to |assets|
        invariant |balances| == |assets|
        invariant Invalid !in assets[..i]
        invariant forall j :: 0 <= j < i ==>
                    balances[j] == if assets[j].Sudt? then UpdatedRow(old(Value()), p, j) else old(balances)[j]
        invariant forall j :: i <= j < |assets| ==> balances[j] == old(balances)[j]
      {
        assert RowFits(assets[i], p.rows[i]);
        assert assets[..i + 1] == assets[..i] + [assets[i]];
        if assets[i].Eth? {
          continue;
        }
        if assets[i] == Invalid {
          return Some(InvalidAsset);
        }
        if assets[i] == CKBytes {
          continue;
        }
        balances := balances[i := Row(LE.UnpackUint128(p.rows[i].nth0).Int(), LE.UnpackUint128(p.rows[i].nth1).Int())];
      }
      assert assets[..|assets|] == assets;
      error := None;
    }
  }

  lemma {:induction false} PackedFits(t: State)
    requires WellFormed(t) && Distinct(t.assets) && PackChannelState(t).Ok?
    ensures Fits(t.assets, PackChannelState(t).value)
  {
    var p := PackChannelState(t).value;
    forall i | 0 <= i < |t.assets| ensures RowFits(t.assets[i], p.rows[i]) {
      PackedRowAt(t, |t.assets|, i);
      LE.PackUnpack(t.balances[i].bal0);
      LE.PackUnpack(t.balances[i].bal1);
    }
  }

  /** A CKByte balance as it comes back: itself, or 2^64 too little. */
  predicate ComesBack(packed: int, read: int) {
    read == if packed < 0x8000_0000_0000_0000 then packed else packed - TWO_64
  }

  /** Packing a state t and updating s from it hands over t's balances: all SUDT balances, and the CKByte balances
      just when both are below 2^63; ETH balances stay, the version only grows, and the rest of s is kept. */
  lemma {:induction false} PackThenUpdate(s: State, t: State)
    requires WellFormed(s) && WellFormed(t) && s.assets == t.assets && Distinct(t.assets) && PackChannelState(t).Ok?
    ensures Fits(s.assets, PackChannelState(t).value)
    ensures var u := Updated(s, PackChannelState(t).value);
            && u.version == (if s.version < t.version then t.version else s.version) && u.isFinal == t.isFinal
            && u.id == s.id && u.assets == s.assets && u.locked == s.locked && |u.balances| == |t.assets|
            && forall i :: 0 <= i < |t.assets| ==>
                 match t.assets[i]
                 case Sudt(_, _) => u.balances[i] == t.balances[i]
                 case CKBytes =>
                   && (u.balances[i] == t.balances[i] <==>
                       t.balances[i].bal0 < 0x8000_0000_0000_0000 && t.balances[i].bal1 < 0x8000_0000_0000_0000)
                   && ComesBack(t.balances[i].bal0, u.balances[i].bal0)
                      && ComesBack(t.balances[i].bal1, u.balances[i].bal1)
                 case _ => u.balances[i] == s.balances[i]
  {
    var p := PackChannelState(t).value;
    PackedFits(t);
    forall i | 0 <= i < |t.assets|
      ensures t.assets[i].Sudt? ==> UpdatedRow(s, p, i) == t.balances[i]
      ensures t.assets[i].CKBytes? ==>
                && (UpdatedRow(s, p, i) == t.balances[i] <==>
                    t.balances[i].bal0 < 0x8000_0000_0000_0000 && t.balances[i].bal1 < 0x8000_0000_0000_0000)
                && ComesBack(t.balances[i].bal0, UpdatedRow(s, p, i).bal0)
                && ComesBack(t.balances[i].bal1, UpdatedRow(s, p, i).bal1)
    {
      PackedRowAt(t, |t.assets|, i);
      assert RowFits(t.assets[i], p.rows[i]);
      if t.assets[i].CKBytes? {
        var idx := AssetIndex(s.assets, CKBytes).value;
        assert SameAsset(s.assets[idx], s.assets[i]);
        assert idx == i;
      }
    }
  }

  /** Updating twice from the same on-chain state is updating once. */
  lemma {:induction false} UpdateIdempotent(s: State, p: PackedState)
    requires WellFormed(s) && Fits(s.assets, p)
    ensures Updated(Updated(s, p), p) == Updated(s, p)
  {
    var u := Updated(s, p);
    assert forall i :: 0 <= i < |s.assets| ==> UpdatedRow(u, p, i) == UpdatedRow(s, p, i);
  }

  // ---------- SUDT balances ----------

  datatype SudtBalances = SudtBalances(typeScript: Script, maxCapacity: uint64, dist0: uint128, dist1: uint128) {
    function Of(part: nat): uint128
      requires part < 2
    {
      if part == 0 then dist0 else dist1
    }

    function Both(): nat {
      dist0 + dist1
    }
  }

  /** The SUDT rows of the first n assets, in order. */
  function SudtRows(s: State, n: nat): Result<seq<SudtBalances>, PackError>
    requires WellFormed(s) && n <= |s.assets|
  {
    if n == 0 then Ok([])
    else match SudtRows(s, n - 1)
      case Err(e) => Err(e)
      case Ok(rows) =>
        match s.assets[n - 1]
        case Eth(_) => Ok(rows)
        case CKBytes => Ok(rows)
        case Invalid => Err(InvalidAsset)
        case Sudt(script, max) =>
          var b := Balances(s, n - 1);
          match (LE.ToUint128(b.bal0), LE.ToUint128(b.bal1))
          case (Err(e), _) => Err(BadAmount(e))
          case (Ok(_), Err(e)) => Err(BadAmount(e))
          case (Ok(_), Ok(_)) => Ok(rows + [SudtBalances(script, max, b.bal0, b.bal1)])
  }

  method GetSUDTBalancesSlice(s: State) returns (r: Result<seq<SudtBalances>, PackError>)
    requires WellFormed(s)
    ensures r == SudtRows(s, |s.assets|)
  {
    var rows: seq<SudtBalances> := [];
    for i := 0 to |s.assets|
      invariant SudtRows(s, i) == Ok(rows)
    {
      if s.assets[i] == Invalid {
        FirstSudtError(s, i + 1);
        return Err(InvalidAsset);
      }
      if !s.assets[i].Sudt? {
        continue;
      }
      var b := Balances(s, i);
      var balA := LE.ToUint128(b.bal0);
      if balA.Err? {
        FirstSudtError(s, i + 1);
        return Err(BadAmount(balA.error));
      }
      var balB := LE.ToUint128(b.bal1);
      if balB.Err? {
        FirstSudtError(s, i + 1);
        return Err(BadAmount(balB.error));
      }
      rows := rows + [SudtBalances(s.assets[i].typeScript, s.assets[i].maxCapacity, b.bal0, b.bal1)];
    }
    r := Ok(rows);
  }

  /** Exactly when the SUDT rows can be read. */
  lemma {:induction false} SudtRowsReadable(s: State, n: nat)
    requires WellFormed(s) && Distinct(s.assets) && n <= |s.assets|
    ensures SudtRows(s, n).Ok? <==>
            forall i :: 0 <= i < n ==>
              && s.assets[i] != Invalid
              && (s.assets[i].Sudt? ==> 0 <= s.balances[i].bal0 < TWO_128 && 0 <= s.balances[i].bal1 < TWO_128)
  {
    if n > 0 {
      SudtRowsReadable(s, n - 1);
      if s.assets[n - 1].Sudt? {
        OwnRow(s, n - 1);
      }
    }
  }

  lemma {:induction false} FirstSudtError(s: State, n: nat)
    requires WellFormed(s) && n <= |s.assets| && SudtRows(s, n).Err?
    ensures SudtRows(s, |s.assets|) == Err(SudtRows(s, n).error)
    decreases |s.assets| - n
  {
    if n < |s.assets| {
      FirstSudtError(s, n + 1);
    }
  }
}

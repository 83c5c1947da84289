/** transaction/transaction.go: AssetInformation, the running uint64 totals the balancing compares. */
module AssetTotals {
  import opened Words
  import opened Cells

  /** A missing key of a Go map reads as 0. */
  function Read(m: map<Hash, uint64>, h: Hash): uint64 {
    if h in m then m[h] else 0
  }

  function Expected(known: set<Script>, h: Hash, cells: seq<Cell>, extra: nat): uint64 {
    Wrap(Total(known, h, cells) + if h == ZERO_HASH then extra else 0)
  }

  lemma {:induction false} ExpectedAppend(known: set<Script>, h: Hash, cells: seq<Cell>, extra: nat, c: Cell)
    ensures Expected(known, h, cells + [c], extra) == Add64(Expected(known, h, cells, extra), Holding(known, h, c))
  {
    TotalAppend(known, h, cells, c);
    WrapAdd(Total(known, h, cells) + (if h == ZERO_HASH then extra else 0), Holding(known, h, c));
    WrapSmall(Holding(known, h, c));
  }

  class AssetInformation {
    const knownUDTs: set<Script>
    var assetAmounts: map<Hash, uint64>

    constructor (knownUDTs: set<Script>)
      ensures this.knownUDTs == knownUDTs && assetAmounts == map[] && Tracks([], 0)
    {
      this.knownUDTs := knownUDTs;
      assetAmounts := map[];
    }

    function AssetAmount(h: Hash): uint64
      reads this
    {
      Read(assetAmounts, h)
    }

    /** The totals are those of these cells, modulo 2^64, with `extra` CKBytes on top. */
    ghost predicate Tracks(cells: seq<Cell>, extra: nat)
      reads this
    {
      forall h :: AssetAmount(h) == Expected(knownUDTs, h, cells, extra)
    }

    method AddAssetAmount(h: Hash, amount: uint64)
      modifies this
      ensures assetAmounts == old(assetAmounts)[h := Add64(old(AssetAmount(h)), amount)]
      ensures old(assetAmounts) == map[] && h == ZERO_HASH ==> Tracks([], amount)
    {
      WrapSmall(amount);
      assetAmounts := assetAmounts[h := Add64(AssetAmount(h), amount)];
    }

    method Clone() returns (c: AssetInformation)
      ensures fresh(c) && c.knownUDTs == knownUDTs && c.assetAmounts == assetAmounts
    {
      c := new AssetInformation(knownUDTs);
      var todo := assetAmounts.Keys;
      while todo != {}
        invariant todo <= assetAmounts.Keys && fresh(c) && c.knownUDTs == knownUDTs
        invariant c.assetAmounts == map h | h in assetAmounts.Keys - todo :: assetAmounts[h]
        decreases todo
      {
        var h :| h in todo;
        c.assetAmounts := c.assetAmounts[h := assetAmounts[h]];
        todo := todo - {h};
      }
      assert c.assetAmounts == assetAmounts;
    }

    method MergeWithAssetInformation(other: AssetInformation)
      requires other != this
      modifies this
      ensures assetAmounts.Keys == old(assetAmounts.Keys) + other.assetAmounts.Keys
      ensures forall h :: Read(assetAmounts, h) == Add64(Read(old(assetAmounts), h), Read(other.assetAmounts, h))
    {
      ghost var was := assetAmounts;
      var added := other.assetAmounts;
      var todo := other.assetAmounts.Keys;
      while todo != {}
        invariant todo <= other.assetAmounts.Keys
        invariant assetAmounts.Keys == old(assetAmounts.Keys) + (other.assetAmounts.Keys - todo)
        invariant forall h: Hash :: Read(assetAmounts, h) ==
                                    if h in todo then Read(was, h) else Add64(Read(was, h), Read(added, h))
        decreases todo
      {
        var h :| h in todo;
        AddAssetAmount(h, added[h]);
        todo := todo - {h};
      }
    }

    /** The comparison ranges over this side's keys only; the other side's are merely counted. */
    method EqualAssets(other: AssetInformation) returns (equal: bool)
      ensures equal <==> |assetAmounts| == |other.assetAmounts| &&
                         forall h :: h in assetAmounts ==> other.AssetAmount(h) == assetAmounts[h]
    {
      if |assetAmounts| != |other.assetAmounts| {
        return false;
      }
      var todo := assetAmounts.Keys;
      while todo != {}
        invariant todo <= assetAmounts.Keys
        invariant forall h :: h in assetAmounts.Keys - todo ==> other.AssetAmount(h) == assetAmounts[h]
        decreases todo
      {
        var h :| h in todo;
        if other.AssetAmount(h) != assetAmounts[h] {
          return false;
        }
        todo := todo - {h};
      }
      return true;
    }

    method AddValuesFromOutput(cell: Cell, ghost cells: seq<Cell>, ghost extra: nat)
      requires Tracks(cells, extra)
      modifies this
      ensures Tracks(cells + [cell], extra)
      ensures assetAmounts.Keys ==
              old(assetAmounts.Keys) + {ZERO_HASH} +
                (if IsUdt(knownUDTs, cell.output) then {cell.output.typ.value} else {})
    {
      ghost var was := assetAmounts;
      AddAssetAmount(ZERO_HASH, cell.output.capacity);
      if IsUdt(knownUDTs, cell.output) {
        AddAssetAmount(cell.output.typ.value, UdtAmount(cell.data));
      }
      forall h ensures AssetAmount(h) == Expected(knownUDTs, h, cells + [cell], extra) {
        assert AssetAmount(h) == Add64(Read(was, h), Holding(knownUDTs, h, cell));
        ExpectedAppend(knownUDTs, h, cells, extra, cell);
      }
    }
  }
}

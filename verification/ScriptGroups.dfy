/** Script groups: for every script the inputs and outputs that refer to it (transaction/transaction.go). */
module ScriptGroups {
  import opened Wrappers
  import opened Cells

  datatype ScriptType = Lock | Type

  datatype ScriptGroup = ScriptGroup(
    script: Script,
    groupType: ScriptType,
    inputIndices: seq<nat>,
    outputIndices: seq<nat>)

  /** Cell number `idx` names `script` as its lock or as its type. */
  datatype Ref = Ref(script: Script, idx: nat)

  function RefsOf(c: CellOutput, idx: nat): seq<Ref> {
    [Ref(c.lock, idx)] + if c.typ.Some? then [Ref(c.typ.value, idx)] else []
  }

  /** All references of a sequence of cells, in order. */
  function Refs(cells: seq<CellOutput>): seq<Ref> {
    if cells == [] then []
    else Refs(cells[..|cells| - 1]) + RefsOf(cells[|cells| - 1], |cells| - 1)
  }

  lemma {:induction false} RefsAppend(cells: seq<CellOutput>, c: CellOutput)
    ensures Refs(cells + [c]) == Refs(cells) + RefsOf(c, |cells|)
  {
    assert (cells + [c])[..|cells|] == cells;
  }

  /** The indices at which a script is referred to. */
  function Pick(h: Script, refs: seq<Ref>): seq<nat> {
    if refs == [] then []
    else
      var last := refs[|refs| - 1];
      Pick(h, refs[..|refs| - 1]) + if last.script == h then [last.idx] else []
  }

  lemma {:induction false} PickAppend(h: Script, refs: seq<Ref>, r: Ref)
    ensures Pick(h, refs + [r]) == Pick(h, refs) + if r.script == h then [r.idx] else []
  {
    assert (refs + [r])[..|refs|] == refs;
  }

  /** The map is a bijection onto group positions and every group lists exactly its references. */
  ghost predicate Exact(groups: seq<ScriptGroup>, index: map<Script, nat>, ins: seq<Ref>, outs: seq<Ref>) {
    && (forall h :: h in index ==> index[h] < |groups| && groups[index[h]].script == h)
    && (forall g :: 0 <= g < |groups| ==>
          && groups[g].script in index && index[groups[g].script] == g
          && groups[g].inputIndices == Pick(groups[g].script, ins)
          && groups[g].outputIndices == Pick(groups[g].script, outs))
    && (forall h: Script :: h !in index ==> Pick(h, ins) == [] && Pick(h, outs) == [])
  }

  function AppendInput(groups: seq<ScriptGroup>, g: nat, idx: nat): seq<ScriptGroup>
    requires g < |groups|
  {
    groups[g := groups[g].(inputIndices := groups[g].inputIndices + [idx])]
  }

  function AppendOutput(groups: seq<ScriptGroup>, g: nat, idx: nat): seq<ScriptGroup>
    requires g < |groups|
  {
    groups[g := groups[g].(outputIndices := groups[g].outputIndices + [idx])]
  }

  lemma {:induction false} ExactAppendInput(groups: seq<ScriptGroup>, index: map<Script, nat>, ins: seq<Ref>,
                                            outs: seq<Ref>, r: Ref)
    requires Exact(groups, index, ins, outs) && r.script in index
    ensures Exact(AppendInput(groups, index[r.script], r.idx), index, ins + [r], outs)
  {
    forall h: Script ensures Pick(h, ins + [r]) == Pick(h, ins) + if r.script == h then [r.idx] else [] {
      PickAppend(h, ins, r);
    }
  }

  lemma {:induction false} ExactAppendOutput(groups: seq<ScriptGroup>, index: map<Script, nat>, ins: seq<Ref>,
                                             outs: seq<Ref>, r: Ref)
    requires Exact(groups, index, ins, outs) && r.script in index
    ensures Exact(AppendOutput(groups, index[r.script], r.idx), index, ins, outs + [r])
  {
    forall h: Script ensures Pick(h, outs + [r]) == Pick(h, outs) + if r.script == h then [r.idx] else [] {
      PickAppend(h, outs, r);
    }
  }

  lemma {:induction false} ExactNewGroup(groups: seq<ScriptGroup>, index: map<Script, nat>, ins: seq<Ref>,
                                         outs: seq<Ref>, h: Script, kind: ScriptType)
    requires Exact(groups, index, ins, outs) && h !in index
    ensures Exact(groups + [ScriptGroup(h, kind, [], [])], index[h := |groups|], ins, outs)
  {}

  predicate RefersTo(c: CellOutput, h: Script) {
    c.lock == h || c.typ == Some(h)
  }

  lemma {:induction false} PickLast(h: Script, cells: seq<CellOutput>)
    requires cells != []
    ensures var n := |cells| - 1;
            Pick(h, Refs(cells)) ==
            Pick(h, Refs(cells[..n])) + (if cells[n].lock == h then [n] else []) +
              (if cells[n].typ == Some(h) then [n] else [])
  {
    var n := |cells| - 1;
    var c, refs := cells[n], Refs(cells[..n]);
    PickAppend(h, refs, Ref(c.lock, n));
    if c.typ.Some? {
      PickAppend(h, refs + [Ref(c.lock, n)], Ref(c.typ.value, n));
      assert refs + RefsOf(c, n) == refs + [Ref(c.lock, n)] + [Ref(c.typ.value, n)];
    } else {
      assert refs + RefsOf(c, n) == refs + [Ref(c.lock, n)];
    }
  }

  /** A group's list contains i just when cell i has the script as its lock or its type. */
  lemma {:induction false} PickMembers(h: Script, cells: seq<CellOutput>)
    ensures forall i: nat :: i in Pick(h, Refs(cells)) <==> i < |cells| && RefersTo(cells[i], h)
  {
    if cells != [] {
      var init, last := cells[..|cells| - 1], cells[|cells| - 1];
      PickMembers(h, init);
      PickLast(h, cells);
      assert cells == init + [last];
      MembersStep(h, init, last, Pick(h, Refs(init)), Pick(h, Refs(cells)));
    }
  }

  lemma {:induction false} MembersStep(h: Script, init: seq<CellOutput>, last: CellOutput, before: seq<nat>,
                                       after: seq<nat>)
    requires after == before + (if last.lock == h then [|init|] else []) +
             (if last.typ == Some(h) then [|init|] else [])
    requires forall i: nat :: i in before <==> i < |init| && RefersTo(init[i], h)
    ensures forall i: nat :: i in after <==> i < |init| + 1 && RefersTo((init + [last])[i], h)
  {
    var n: nat := |init|;
    assert forall i: nat :: i in after <==> i in before || (i == n && RefersTo(last, h));
    assert forall i: nat :: i < n ==> (init + [last])[i] == init[i];
  }

  ghost predicate Increasing(s: seq<nat>) {
    forall i, j :: 0 <= i < j < |s| ==> s[i] < s[j]
  }

  predicate UsesAsBoth(c: CellOutput, h: Script) {
    c.lock == h && c.typ == Some(h)
  }

  ghost predicate NoneUsesAsBoth(cells: seq<CellOutput>, h: Script) {
    forall c :: c in cells ==> !UsesAsBoth(c, h)
  }

  /** A group's list is strictly increasing just when no cell uses the script both as lock and as type. */
  lemma {:induction false} PickIncreasing(h: Script, cells: seq<CellOutput>)
    ensures Increasing(Pick(h, Refs(cells))) <==> NoneUsesAsBoth(cells, h)
  {
    if cells != [] {
      var init, last := cells[..|cells| - 1], cells[|cells| - 1];
      PickIncreasing(h, init);
      PickMembers(h, init);
      PickLast(h, cells);
      assert cells == init + [last];
      IncreasingStep(h, init, last, Pick(h, Refs(init)), Pick(h, Refs(cells)));
    }
  }

  lemma {:induction false} IncreasingStep(h: Script, init: seq<CellOutput>, last: CellOutput, before: seq<nat>,
                                          after: seq<nat>)
    requires forall i: nat :: i in before ==> i < |init|
    requires after == before + (if last.lock == h then [|init|] else []) +
             (if last.typ == Some(h) then [|init|] else [])
    requires Increasing(before) <==> NoneUsesAsBoth(init, h)
    ensures Increasing(after) <==> NoneUsesAsBoth(init + [last], h)
  {
    var n: nat := |init|;
    var t: seq<nat> := (if last.lock == h then [n] else []) + if last.typ == Some(h) then [n] else [];
    IncreasingExtended(before, n, t);
    assert after == before + t;
    assert |t| == 2 <==> UsesAsBoth(last, h);
    assert forall c :: c in init + [last] <==> c in init || c == last;
    assert NoneUsesAsBoth(init + [last], h) <==> NoneUsesAsBoth(init, h) && !UsesAsBoth(last, h);
  }

  lemma {:induction false} IncreasingExtended(s: seq<nat>, n: nat, t: seq<nat>)
    requires forall i: nat :: i in s ==> i < n
    requires t == [] || t == [n] || t == [n, n]
    ensures Increasing(s + t) <==> Increasing(s) && t != [n, n]
  {
    var u := s + t;
    assert forall i :: 0 <= i < |s| ==> s[i] in s && u[i] == s[i];
    if t == [n, n] {
      assert u[|s|] == u[|s| + 1];
    } else if !Increasing(s) {
      var i, j :| 0 <= i < j < |s| && s[i] >= s[j];
      assert u[i] >= u[j];
    }
  }

  /** What exactness means for one group of a transaction: it is the only group of its script, it lists the inputs and
      outputs that use the script and no others, each list strictly increasing unless a cell uses the script as both. */
  lemma {:induction false} GroupListsItsCells(
    groups: seq<ScriptGroup>, index: map<Script, nat>, ins: seq<CellOutput>, outs: seq<CellOutput>, g: nat)
    requires Exact(groups, index, Refs(ins), Refs(outs)) && g < |groups|
    ensures forall k :: 0 <= k < |groups| && groups[k].script == groups[g].script ==> k == g
    ensures forall i: nat :: i in groups[g].inputIndices <==> i < |ins| && RefersTo(ins[i], groups[g].script)
    ensures forall i: nat :: i in groups[g].outputIndices <==> i < |outs| && RefersTo(outs[i], groups[g].script)
    ensures Increasing(groups[g].inputIndices) <==> NoneUsesAsBoth(ins, groups[g].script)
    ensures Increasing(groups[g].outputIndices) <==> NoneUsesAsBoth(outs, groups[g].script)
  {
    PickMembers(groups[g].script, ins);
    PickMembers(groups[g].script, outs);
    PickIncreasing(groups[g].script, ins);
    PickIncreasing(groups[g].script, outs);
  }

  // ---------- CopyValidScriptGroups ----------

  predicate Needed(g: ScriptGroup) {
    match g.groupType
    case Lock => g.inputIndices != []
    case Type => |g.outputIndices| + |g.inputIndices| != 0
  }

  function Kept(groups: seq<ScriptGroup>): seq<ScriptGroup> {
    if groups == [] then []
    else
      var g := groups[|groups| - 1];
      Kept(groups[..|groups| - 1]) + if Needed(g) then [g] else []
  }

  method CopyValidScriptGroups(groups: seq<ScriptGroup>) returns (valid: seq<ScriptGroup>)
    ensures valid == Kept(groups)
  {
    valid := [];
    for i := 0 to |groups|
      invariant valid == Kept(groups[..i])
    {
      assert groups[..i + 1][..i] == groups[..i];
      match groups[i].groupType {
        case Lock =>
          if |groups[i].inputIndices| == 0 {
            continue;
          }
        case Type =>
          if |groups[i].outputIndices| + |groups[i].inputIndices| == 0 {
            continue;
          }
      }
      valid := valid + [groups[i]];
    }
    assert groups[..|groups|] == groups;
  }

  lemma {:induction false} KeptMembers(groups: seq<ScriptGroup>, g: nat)
    requires g < |groups|
    ensures Needed(groups[g]) ==> groups[g] in Kept(groups)
    ensures forall k :: k in Kept(groups) ==> Needed(k) && k in groups
  {
    var n := |groups| - 1;
    if n > 0 {
      KeptMembers(groups[..n], if g < n then g else 0);
    }
    assert groups[n] in groups;
  }

  /** No group that verification evaluates is dropped: every script an input refers to keeps its group, and so
      does every type script of an output, unless it was first met as a lock and no input refers to it. */
  lemma {:induction false} NothingNeededIsDropped(
    groups: seq<ScriptGroup>, index: map<Script, nat>, ins: seq<CellOutput>, outs: seq<CellOutput>, h: Script)
    requires Exact(groups, index, Refs(ins), Refs(outs))
    ensures (exists i :: 0 <= i < |ins| && RefersTo(ins[i], h)) ==> h in index && groups[index[h]] in Kept(groups)
    ensures (exists i :: 0 <= i < |outs| && outs[i].typ == Some(h)) && h in index
            && groups[index[h]].groupType == Type ==>
              groups[index[h]] in Kept(groups)
    ensures forall g :: g in Kept(groups) && g.groupType == Lock ==>
            exists i :: 0 <= i < |ins| && RefersTo(ins[i], g.script)
  {
    PickMembers(h, ins);
    PickMembers(h, outs);
    if i: nat :| i < |ins| && RefersTo(ins[i], h) {
      assert i in Pick(h, Refs(ins));
    }
    if i: nat :| i < |outs| && outs[i].typ == Some(h) {
      assert RefersTo(outs[i], h);
      assert i in Pick(h, Refs(outs));
    }
    if h in index {
      KeptMembers(groups, index[h]);
    }
    forall g | g in Kept(groups) && g.groupType == Lock
      ensures exists i :: 0 <= i < |ins| && RefersTo(ins[i], g.script)
    {
      KeptMembers(groups, 0);
      PickMembers(g.script, ins);
      var i := g.inputIndices[0];
      assert i in Pick(g.script, Refs(ins));
    }
  }
}

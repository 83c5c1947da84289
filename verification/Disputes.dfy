/** client/ckbclient.go: many clients dispute one channel. Each reads cells, decides, and later submits a transaction
    that consumes what it read; the ledger refuses it if any of those cells is gone. */
module Disputes {
  import opened Words
  import opened Wrappers
  import opened Cells
  import opened ChannelStates
  import opened Statuses

  // ---------- checkVersion ----------

  /** With versions of a virtual channel, or without (both nil). */
  function CheckVersion(newParent: uint64, oldParent: uint64, vc: Option<(uint64, uint64)>): bool {
    if newParent < oldParent then false
    else if vc.None? then newParent != oldParent
    else
      var (newVc, oldVc) := vc.value;
      if newVc < oldVc then false
      else if newParent == oldParent && newVc == oldVc then false
      else true
  }

  type Versions = (uint64, uint64)

  predicate AtMost(a: Versions, b: Versions) {
    a.0 <= b.0 && a.1 <= b.1
  }

  /** The check accepts exactly the strict product order; without a virtual channel, the strict order of the parent. */
  lemma {:induction false} CheckIsStrictOrder(a: Versions, b: Versions)
    ensures CheckVersion(b.0, a.0, Some((b.1, a.1))) <==> AtMost(a, b) && a != b
    ensures CheckVersion(b.0, a.0, None) <==> a.0 < b.0
  {}

  predicate Accepted(a: Versions, b: Versions) {
    CheckVersion(b.0, a.0, Some((b.1, a.1)))
  }

  /** Accepted updates never lead back, and at most as many follow one another as the versions differ. */
  lemma {:induction false} ChainsAreShort(chain: seq<Versions>)
    requires |chain| > 0 && forall i :: 0 <= i < |chain| - 1 ==> Accepted(chain[i], chain[i + 1])
    ensures var a, b := chain[0], chain[|chain| - 1];
            && AtMost(a, b) && (|chain| > 1 ==> Accepted(a, b) && !Accepted(b, a))
            && |chain| - 1 <= (b.0 as int - a.0 as int) + (b.1 as int - a.1 as int)
  {
    if |chain| > 1 {
      var n := |chain| - 1;
      assert Accepted(chain[n - 1], chain[n - 1 + 1]);
      ChainsAreShort(chain[..n]);
    }
  }

  /** And chains of that length exist, so the bound is the best possible. */
  function Ladder(a: Versions, b: Versions): (chain: seq<Versions>)
    requires AtMost(a, b)
    ensures |chain| == (b.0 - a.0) + (b.1 - a.1) + 1 && chain[0] == a && chain[|chain| - 1] == b
    ensures forall i :: 0 <= i < |chain| - 1 ==> Accepted(chain[i], chain[i + 1])
    decreases b.0 - a.0, b.1 - a.1
  {
    if a.0 < b.0 then [a] + Ladder((a.0 + 1, a.1), b)
    else if a.1 < b.1 then [a] + Ladder((a.0, a.1 + 1), b)
    else [a]
  }

  // ---------- the ledger and its clients ----------

  /** A live channel cell; `id` stands for the out-point, which no two outputs share. */
  datatype ChannelTip = ChannelTip(id: nat, status: ChannelStatus)

  datatype VcTip = VcTip(status: VirtualChannelStatus, block: nat)

  /** What a client last read, by two separate calls. */
  datatype Snapshot = Snapshot(channel: Option<ChannelTip>, vcs: seq<(nat, VcTip)>)

  /** The live cells - virtual channel cells by id - and what the clients remember. */
  datatype World = World(channel: Option<ChannelTip>, vcs: map<nat, VcTip>, snapshots: map<nat, Snapshot>, nextId: nat)

  datatype Event =
    | ReadChannel(client: nat)
    | ReadVirtualChannel(client: nat, order: seq<nat>)
    | Fund(client: nat)
    | Dispute(client: nat, state: PackedState)
    | FirstVcDispute(client: nat, state: PackedState, vc: PackedState, parents: seq<ParentData>, owner: Participant,
                     vcts: Script, block: nat)
    | VcProgress(client: nat, state: PackedState, vc: PackedState, vcts: Script, block: nat)
    | VcMerge(client: nat, block: nat)
    | ForceCloseWithVC(client: nat, block: nat)
    | CloseOrAbort(client: nat)
    | OtherParentProgress(client: nat, vc: PackedState, block: nat)
    | OtherParentForceClose(client: nat, block: nat)

  function Seen(w: World, client: nat): Snapshot {
    if client in w.snapshots then w.snapshots[client] else Snapshot(None, [])
  }

  /** The channel cell the client read is still the live one. */
  predicate ChannelIsLive(w: World, s: Snapshot) {
    s.channel.Some? && w.channel.Some? && s.channel.value.id == w.channel.value.id
  }

  /** The client read one virtual channel cell, and it is still live. */
  predicate VcIsLive(w: World, s: Snapshot) {
    |s.vcs| == 1 && s.vcs[0].0 in w.vcs
  }

  /** Accepted transactions: outputs get new ids. */
  function PutChannel(w: World, status: ChannelStatus): World {
    w.(channel := Some(ChannelTip(w.nextId, status)), nextId := w.nextId + 1)
  }

  function PutVc(w: World, spent: set<nat>, status: VirtualChannelStatus, block: nat): World {
    w.(vcs := (w.vcs - spent)[w.nextId := VcTip(status, block)], nextId := w.nextId + 1)
  }

  /** A force close flags the virtual channel cell the first time and spends it the second time. */
  function ForceCloseVc(w: World, id: nat, status: VirtualChannelStatus, block: nat): World {
    if status.firstForceClose then w.(vcs := w.vcs - {id}) else PutVc(w, {id}, ForceClosedOnce(status), block)
  }

  /** What a client builds is made from what it read, not from what is live. */
  function Next(w: World, e: Event): World {
    var s := Seen(w, e.client);
    match e
    case ReadChannel(c) => w.(snapshots := w.snapshots[c := s.(channel := w.channel)])
    case ReadVirtualChannel(c, order) =>
      if forall i :: 0 <= i < |order| ==> order[i] in w.vcs
      then w.(snapshots := w.snapshots[c :=
                                       s.(vcs := seq(|order|, i requires 0 <= i < |order| && order[i] in w.vcs =>
                                                     (order[i], w.vcs[order[i]])))])
      else w
    case Fund(_) =>
      if ChannelIsLive(w, s) && !s.channel.value.status.funded then
        PutChannel(w, ToFundedChannelStatus(s.channel.value.status)) else w
    case Dispute(_, state) =>
      if ChannelIsLive(w, s) && CheckVersion(state.version, s.channel.value.status.state.version, None)
      then PutChannel(w, Disputed(s.channel.value.status, state)) else w
    case FirstVcDispute(_, state, vc, parents, owner, vcts, block) =>
      if ChannelIsLive(w, s) && s.vcs == [] && state.version >= s.channel.value.status.state.version
      then PutVc(PutChannel(w, VcDisputed(s.channel.value.status, state, vcts)), {},
                 VirtualChannelStatus(vc, parents, false, owner), block)
      else w
    case VcProgress(_, state, vc, vcts, block) =>
      if ChannelIsLive(w, s) && VcIsLive(w, s) &&
         CheckVersion(state.version, s.channel.value.status.state.version,
                      Some((vc.version, s.vcs[0].1.status.vcState.version)))
      then PutVc(PutChannel(w, VcDisputed(s.channel.value.status, state, vcts)), {s.vcs[0].0},
                 Progressed(s.vcs[0].1.status, vc), block)
      else w
    case VcMerge(_, block) =>
      if |s.vcs| >= 2 && s.vcs[0].0 != s.vcs[1].0 && s.vcs[0].0 in w.vcs && s.vcs[1].0 in w.vcs
      then PutVc(w, {s.vcs[0].0, s.vcs[1].0},
                 if s.vcs[0].1.block < s.vcs[1].1.block then s.vcs[0].1.status else s.vcs[1].1.status, block)
      else w
    case ForceCloseWithVC(_, block) =>
      if ChannelIsLive(w, s) && VcIsLive(w, s) then
        ForceCloseVc(w.(channel := None), s.vcs[0].0, s.vcs[0].1.status, block) else w
    case CloseOrAbort(_) =>
      if ChannelIsLive(w, s) then w.(channel := None) else w
    case OtherParentProgress(_, vc, block) =>
      if VcIsLive(w, s) && vc.version >= s.vcs[0].1.status.vcState.version
      then PutVc(w, {s.vcs[0].0}, Progressed(s.vcs[0].1.status, vc), block) else w
    case OtherParentForceClose(_, block) =>
      if VcIsLive(w, s) then ForceCloseVc(w, s.vcs[0].0, s.vcs[0].1.status, block) else w
  }

  function Run(start: ChannelStatus, events: seq<Event>): World {
    if events == [] then World(Some(ChannelTip(0, start)), map[], map[], 1)
    else Next(Run(start, events[..|events| - 1]), events[|events| - 1])
  }

  // ---------- what every run keeps ----------

  /** How a channel's status may change: versions grow, flags stay set, and once funded every change disputes. */
  predicate Grows(a: ChannelStatus, b: ChannelStatus) {
    && a.state.version <= b.state.version
    && (a.funded ==> b.funded) && (a.disputed ==> b.disputed) && (a.vcDisputed ==> b.vcDisputed)
    && (a.funded && a != b ==> b.disputed)
  }

  /** What was read under an id that is still live is what is live. */
  predicate Faithful(w: World, s: Snapshot) {
    && (s.channel.Some? ==> s.channel.value.id < w.nextId)
    && (ChannelIsLive(w, s) ==> s.channel == w.channel)
    && forall v :: v in s.vcs ==> v.0 < w.nextId && (v.0 in w.vcs ==> w.vcs[v.0] == v.1)
  }

  predicate Consistent(w: World) {
    && (w.channel.Some? ==> w.channel.value.id < w.nextId)
    && (forall id :: id in w.vcs ==> id < w.nextId)
    && forall c :: c in w.snapshots ==> Faithful(w, w.snapshots[c])
  }

  lemma {:induction false} SeenIsFaithful(w: World, client: nat)
    requires Consistent(w)
    ensures Faithful(w, Seen(w, client))
  {}

  /** Out-points are never reused: what is live was live before, or is new. */
  predicate Moves(w: World, n: World) {
    && w.nextId <= n.nextId
    && (n.channel.Some? ==> n.channel == w.channel || w.nextId <= n.channel.value.id < n.nextId)
    && forall id :: id in n.vcs ==> (id in w.vcs && n.vcs[id] == w.vcs[id]) || w.nextId <= id < n.nextId
  }

  lemma {:induction false} StepMoves(w: World, e: Event)
    ensures Moves(w, Next(w, e))
  {}

  lemma {:induction false} StaysFaithful(w: World, n: World, s: Snapshot)
    requires Faithful(w, s) && Moves(w, n)
    ensures Faithful(n, s)
  {}

  lemma {:induction false} StaysConsistent(w: World, e: Event)
    requires Consistent(w)
    ensures Consistent(Next(w, e))
  {
    hide Faithful;
    var n := Next(w, e);
    StepMoves(w, e);
    forall c | c in n.snapshots ensures Faithful(n, n.snapshots[c]) {
      SeenIsFaithful(w, c);
      if n.snapshots[c] == Seen(w, c) {
        StaysFaithful(w, n, n.snapshots[c]);
      } else {
        FreshIsFaithful(w, e);
      }
    }
  }

  lemma {:induction false} FreshIsFaithful(w: World, e: Event)
    requires Consistent(w) && (e.ReadChannel? || e.ReadVirtualChannel?)
    ensures Faithful(Next(w, e), Seen(Next(w, e), e.client))
  {
    SeenIsFaithful(w, e.client);
  }

  /** One accepted step from a live channel cell to the next. */
  lemma {:induction false} StepGrows(w: World, e: Event)
    requires Consistent(w)
    ensures var n := Next(w, e);
            n.channel.Some? ==> w.channel.Some? && Grows(w.channel.value.status, n.channel.value.status)
    ensures var n := Next(w, e);
            n.channel.Some? && e.Dispute? && n != w ==>
              w.channel.value.status.state.version < n.channel.value.status.state.version
  {
    SeenIsFaithful(w, e.client);
  }

  /** What an accepted transaction leaves on the channel cell, and that it consumed the live one. */
  lemma {:induction false} AcceptedMeans(w: World, e: Event)
    requires Consistent(w) && Next(w, e) != w && (e.Fund? || e.Dispute? || e.FirstVcDispute? || e.VcProgress?)
    ensures var n := Next(w, e);
            && w.channel.Some? && n.channel.Some? && Seen(w, e.client).channel == w.channel
               && n.channel.value.id == w.nextId
            && var before, after := w.channel.value.status, n.channel.value.status;
            && (e.Fund? ==> !before.funded && after == before.(funded := true))
            && (e.Dispute? ==> after.state == e.state && after.disputed && after.funded == before.funded &&
                               after.vcDisputed == before.vcDisputed && after.vctsHash == before.vctsHash)
            && (e.FirstVcDispute? || e.VcProgress? ==>
                  after.state == e.state && after.disputed && after.vcDisputed && after.vctsHash == e.vcts
                    && after.funded == before.funded)
  {
    SeenIsFaithful(w, e.client);
  }

  lemma {:induction false} GrowsFurther(a: ChannelStatus, b: ChannelStatus, c: ChannelStatus)
    requires Grows(a, b) && Grows(b, c)
    ensures Grows(a, c)
  {}

  /** Over every run and any interleaving: a live channel cell's version never decreases, its flags are never reset,
      and once it is funded every other status on it is a disputed one. */
  lemma {:induction false} RunGrows(start: ChannelStatus, events: seq<Event>, n: nat)
    requires n <= |events|
    ensures Consistent(Run(start, events))
    ensures var a, b := Run(start, events[..n]).channel, Run(start, events).channel;
            b.Some? ==> a.Some? && Grows(a.value.status, b.value.status)
  {
    var m := |events| - 1;
    if events != [] {
      RunGrows(start, events[..m], if n <= m then n else m);
      hide Next, Consistent, Grows;
      StaysConsistent(Run(start, events[..m]), events[m]);
    }
    if n == |events| {
      assert events[..n] == events;
      GrowsItself(Run(start, events));
    } else {
      hide Next, Consistent, Grows;
      assert events[..m][..n] == events[..n];
      StepGrows(Run(start, events[..m]), events[m]);
      var a, b, c := Run(start, events[..n]).channel, Run(start, events[..m]).channel, Run(start, events).channel;
      if c.Some? {
        GrowsFurther(a.value.status, b.value.status, c.value.status);
      }
    }
  }

  lemma {:induction false} GrowsItself(w: World)
    ensures w.channel.Some? ==> Grows(w.channel.value.status, w.channel.value.status)
  {}

  /** A virtual channel cell that is not the first one descends from a spent one: owner and parents are the same, the
      force close flag is not reset, and the version does not decrease - unless two cells were merged. */
  predicate Descends(a: VirtualChannelStatus, b: VirtualChannelStatus, merged: bool) {
    && a.owner == b.owner && a.parents == b.parents && (a.firstForceClose ==> b.firstForceClose)
    && (!merged ==> a.vcState.version <= b.vcState.version)
  }

  lemma {:induction false} VcDescends(w: World, e: Event, id: nat)
    requires Consistent(w) && id in Next(w, e).vcs && id !in w.vcs && !e.FirstVcDispute?
    ensures exists k ::
              k in w.vcs && k !in Next(w, e).vcs && Descends(w.vcs[k].status, Next(w, e).vcs[id].status, e.VcMerge?)
  {
    var s := Seen(w, e.client);
    SeenIsFaithful(w, e.client);
    assert s.vcs[0] in s.vcs;
    var k := if e.VcMerge? && !(s.vcs[0].1.block < s.vcs[1].1.block) then s.vcs[1].0 else s.vcs[0].0;
    if e.VcMerge? {
      assert s.vcs[1] in s.vcs;
    }
    assert k in w.vcs && k !in Next(w, e).vcs && Descends(w.vcs[k].status, Next(w, e).vcs[id].status, e.VcMerge?);
  }

  /** What a client builds from stale reads is refused: an accepted progress is one for the live cells, and the cells it
      leaves live have strictly greater versions as a pair. */
  lemma {:induction false} ProgressIsStrict(w: World, e: Event)
    requires Consistent(w) && e.VcProgress? && Next(w, e) != w
    ensures w.channel.Some? && |Seen(w, e.client).vcs| == 1 && Seen(w, e.client).vcs[0].0 in w.vcs
    ensures var n, id := Next(w, e), Seen(w, e.client).vcs[0].0;
            && n.channel.Some? && id !in n.vcs && w.nextId + 1 in n.vcs
            && n.channel.value.status.state == e.state && n.vcs[w.nextId + 1].status.vcState == e.vc
            && Accepted((w.channel.value.status.state.version, w.vcs[id].status.vcState.version),
                        (n.channel.value.status.state.version, n.vcs[w.nextId + 1].status.vcState.version))
  {
    SeenIsFaithful(w, e.client);
    var s := Seen(w, e.client);
    assert s.vcs[0] in s.vcs;
  }

  /** Both cells the client would spend are as it read them. */
  predicate Current(w: World, client: nat) {
    w.channel.Some? && Seen(w, client).channel == w.channel
  }

  predicate VcCurrent(w: World, client: nat) {
    |Seen(w, client).vcs| == 1 && VcLiveAs(w, Seen(w, client).vcs[0])
  }

  predicate VcLiveAs(w: World, v: (nat, VcTip)) {
    v.0 in w.vcs && w.vcs[v.0] == v.1
  }

  /** Exactly when a transaction is accepted: if all it spends is as the client read it, and its versions are ahead. */
  lemma {:induction false} AcceptedExactly(w: World, e: Event)
    requires Consistent(w) && !e.ReadChannel? && !e.ReadVirtualChannel?
    ensures Next(w, e) != w <==>
            var c, vcs := e.client, Seen(w, e.client).vcs;
            match e
            case Fund(_) => Current(w, c) && !w.channel.value.status.funded
            case Dispute(_, state) => Current(w, c) && state.version > w.channel.value.status.state.version
            case FirstVcDispute(_, state, _, _, _, _, _) =>
              Current(w, c) && vcs == [] && state.version >= w.channel.value.status.state.version
            case VcProgress(_, state, vc, _, _) =>
              && Current(w, c) && VcCurrent(w, c)
              && state.version >= w.channel.value.status.state.version
              && vc.version >= w.vcs[vcs[0].0].status.vcState.version
              && (state.version > w.channel.value.status.state.version ||
                  vc.version > w.vcs[vcs[0].0].status.vcState.version)
            case VcMerge(_, _) =>
              |vcs| >= 2 && vcs[0].0 != vcs[1].0 && VcLiveAs(w, vcs[0]) && VcLiveAs(w, vcs[1])
            case ForceCloseWithVC(_, _) => Current(w, c) && VcCurrent(w, c)
            case CloseOrAbort(_) => Current(w, c)
            case OtherParentProgress(_, vc, _) =>
              VcCurrent(w, c) && vc.version >= w.vcs[vcs[0].0].status.vcState.version
            case _ => VcCurrent(w, c)
  {
    SeenIsFaithful(w, e.client);
    var s := Seen(w, e.client);
    assert |s.vcs| > 0 ==> s.vcs[0] in s.vcs;
    assert |s.vcs| > 1 ==> s.vcs[1] in s.vcs;
    assert s.channel.Some? && s.channel == w.channel ==> ChannelIsLive(w, s);
  }

  /** What an accepted transaction makes of the virtual channel cells: a first dispute adds one, progress replaces the
      state of the one it spends, a merge keeps the older of two, a force close flags it the first time and spends it
      for good the second time. Those of a channel of its own also spend the channel cell. */
  lemma {:induction false} VcAcceptedMeans(w: World, e: Event)
    requires Consistent(w) && Next(w, e) != w
    ensures var n, vcs := Next(w, e), Seen(w, e.client).vcs;
            match e
            case ReadChannel(_) => n.vcs == w.vcs && n.channel == w.channel
            case ReadVirtualChannel(_, _) => n.vcs == w.vcs && n.channel == w.channel
            case Fund(_) => n.vcs == w.vcs
            case Dispute(_, _) => n.vcs == w.vcs
            case CloseOrAbort(_) => n.vcs == w.vcs && n.channel == None
            case FirstVcDispute(_, _, vc, parents, owner, _, block) =>
              n.vcs == w.vcs[w.nextId + 1 := VcTip(VirtualChannelStatus(vc, parents, false, owner), block)]
            case VcProgress(_, _, vc, _, block) =>
              |vcs| == 1 && Replaced(w, n, vcs[0].0, w.nextId + 1, vc, block)
            case OtherParentProgress(_, vc, block) =>
              |vcs| == 1 && Replaced(w, n, vcs[0].0, w.nextId, vc, block) && n.channel == w.channel
            case VcMerge(_, block) =>
              && |vcs| >= 2 && vcs[0].0 in w.vcs && vcs[1].0 in w.vcs && n.channel == w.channel
              && var a, b := w.vcs[vcs[0].0], w.vcs[vcs[1].0];
              var kept := if a.block < b.block then a.status else b.status;
              n.vcs == (w.vcs - {vcs[0].0, vcs[1].0})[w.nextId := VcTip(kept, block)]
            case ForceCloseWithVC(_, block) => |vcs| == 1 && Flagged(w, n, vcs[0].0, block) && n.channel == None
            case OtherParentForceClose(_, block) =>
              |vcs| == 1 && Flagged(w, n, vcs[0].0, block) && n.channel == w.channel
  {
    if !e.ReadChannel? && !e.ReadVirtualChannel? {
      AcceptedExactly(w, e);
    }
  }

  predicate Replaced(w: World, n: World, id: nat, newId: nat, vc: PackedState, block: nat) {
    && id in w.vcs
    && var s := w.vcs[id].status;
    n.vcs == (w.vcs - {id})[newId := VcTip(VirtualChannelStatus(vc, s.parents, s.firstForceClose, s.owner), block)]
  }

  predicate Flagged(w: World, n: World, id: nat, block: nat) {
    && id in w.vcs
    && var s := w.vcs[id].status;
    if s.firstForceClose then n.vcs == w.vcs - {id}
    else n.vcs == (w.vcs - {id})[w.nextId := VcTip(VirtualChannelStatus(s.vcState, s.parents, true, s.owner), block)]
  }

  /** A read shows the client what is live: the channel cell, and the cells it asked for in that order. */
  lemma {:induction false} ReadsShowWhatIsLive(w: World, client: nat, order: seq<nat>)
    requires forall i :: 0 <= i < |order| ==> order[i] in w.vcs
    ensures Seen(Next(w, ReadChannel(client)), client).channel == w.channel
    ensures var vcs := Seen(Next(w, ReadVirtualChannel(client, order)), client).vcs;
            |vcs| == |order| && forall i :: 0 <= i < |order| ==> vcs[i].0 == order[i] && VcLiveAs(w, vcs[i])
  {}
}

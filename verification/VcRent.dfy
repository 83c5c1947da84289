/** The rent of virtual channel cells: who pays it in, and who gets it back, over any sequence of first disputes,
    merges, progress and force closes. */
module VcRent {
  import opened Words
  import opened Wrappers
  import opened Cells
  import opened ChannelStates
  import opened Settlement
  import opened Statuses
  import opened ScriptHandlers
  import Lifecycle

  /** A live cell of the virtual channel; `depositor` is whoever paid for it, which the chain does not record. */
  datatype VcLive = VcLive(capacity: uint64, status: VirtualChannelStatus, block: nat, depositor: Participant)

  /** Payments for the cell of an owner: by which lock it was made, or to which. A first dispute is paid from the lock
      the client records as the owner's payment script; a rewritten status of another size, or a refund to both parties,
      is paid by whoever submits the transaction. */
  datatype Entry =
    | Deposit(lock: Script, owner: Participant, amount: int)
    | TopUp(lock: Script, owner: Participant, amount: int)
    | DoubleRefund(lock: Script, owner: Participant, amount: int)
    | Refund(lock: Script, owner: Participant, amount: int)

  datatype Rent = Rent(cells: seq<VcLive>, log: seq<Entry>)

  datatype Env = Env(psh: PerunScriptHandler, vcts: Script) {
    function Capacity(status: VirtualChannelStatus): uint64 {
      psh.VcCell(vcts, status).output.capacity
    }
  }

  /** Any number of cells of one virtual channel may be live: a first dispute is built by whoever sees none, and a
      client that looks the channel up for the first time is shown only one. Cells are named by their position. */
  datatype Event =
    | FirstDispute(vc: PackedState, parents: seq<ParentData>, owner: Participant, block: nat)
    | Progress(i: nat, vc: PackedState, submitter: Script, block: nat)
    | Merge(i: nat, j: nat, block: nat)
    | FirstForceClose(i: nat, submitter: Script, block: nat)
    | SecondForceClose(i: nat, locks: (Script, Script), submitter: Script)

  /** Cell i gets a new status; the capacity follows its size. */
  function Rewrite(env: Env, r: Rent, i: nat, status: VirtualChannelStatus, submitter: Script, block: nat): Rent
    requires i < |r.cells|
  {
    var c := r.cells[i];
    Rent(r.cells[i := VcLive(env.Capacity(status), status, block, c.depositor)],
         r.log + [TopUp(submitter, c.depositor, env.Capacity(status) - c.capacity)])
  }

  function Without(cells: seq<VcLive>, i: nat): seq<VcLive>
    requires i < |cells|
  {
    cells[..i] + cells[i + 1..]
  }

  /** The refunds of a second force close to lock x, in the order of the outputs. */
  function RefundEntries(x: Script, owner: Participant, locks: (Script, Script), capacity: uint64): seq<Entry> {
    (if x == locks.0 then [Refund(x, owner, capacity)] else []) +
      (if x == locks.1 then [Refund(x, owner, capacity)] else []) +
    (if x != locks.0 && x != locks.1 then [Refund(x, owner, capacity)] else [])
  }

  /** Of the two cells read, in this order, the one a merge keeps: the older one, or the second one if both are equally
      old. */
  function Kept(cells: seq<VcLive>, i: nat, j: nat): (k: nat)
    requires i < |cells| && j < |cells|
    ensures k == i || k == j
  {
    if cells[i].block < cells[j].block then i else j
  }

  predicate CanMerge(r: Rent, i: nat, j: nat) {
    i < |r.cells| && j < |r.cells| && i != j
  }

  function MergeCells(env: Env, r: Rent, i: nat, j: nat, block: nat): Rent
    requires CanMerge(r, i, j)
  {
    var a, b := r.cells[i], r.cells[j];
    var (kept, removed) := if a.block < b.block then (i, j) else (j, i);
    match env.psh.VcMergeDraft(
      (OutPoint(0, 0), OutPoint(0, 1)), env.vcts, (a.status, b.status), (a.capacity, b.capacity), (a.block, b.block))
    case Err(_) => r
    case Ok(d) =>
      var c := VcLive(d.outputs[0].output.capacity, r.cells[kept].status, block, r.cells[kept].depositor);
      Rent(Without(r.cells[kept := c], removed),
           r.log + [Refund(d.outputs[1].output.lock, r.cells[removed].depositor, d.outputs[1].output.capacity)])
  }

  function CloseCell(env: Env, r: Rent, i: nat, locks: (Script, Script), submitter: Script): Rent
    requires i < |r.cells|
  {
    var c := r.cells[i];
    match env.psh.OwnerScript(c.status.owner)
    case None => r
    case Some(x) =>
      Rent(Without(r.cells, i),
           r.log + RefundEntries(x, c.depositor, locks, c.capacity) +
           if x == locks.0 == locks.1 then [DoubleRefund(submitter, c.depositor, c.capacity)] else [])
  }

  /** An event for a cell that is not live is refused. */
  function Next(env: Env, r: Rent, e: Event): Rent {
    match e
    case FirstDispute(vc, parents, owner, block) =>
      var status := VirtualChannelStatus(vc, parents, false, owner);
      Rent(r.cells + [VcLive(env.Capacity(status), status, block, owner)],
           r.log + [Deposit(owner.payment, owner, env.Capacity(status))])
    case Progress(i, vc, submitter, block) =>
      if i >= |r.cells| then r else Rewrite(env, r, i, Progressed(r.cells[i].status, vc), submitter, block)
    case FirstForceClose(i, submitter, block) =>
      if i >= |r.cells| || r.cells[i].status.firstForceClose then r
      else Rewrite(env, r, i, ForceClosedOnce(r.cells[i].status), submitter, block)
    case Merge(i, j, block) =>
      if !CanMerge(r, i, j) then r else MergeCells(env, r, i, j, block)
    case SecondForceClose(i, locks, submitter) =>
      if i >= |r.cells| || !r.cells[i].status.firstForceClose then r else CloseCell(env, r, i, locks, submitter)
  }

  function Run(env: Env, events: seq<Event>): Rent {
    if events == [] then Rent([], []) else Next(env, Run(env, events[..|events| - 1]), events[|events| - 1])
  }

  // ---------- accounts ----------

  datatype Item = PaidIn | ToppedUp | Doubled | Returned | Strayed

  /** Rent that comes back to another lock than the one it was paid from has strayed. */
  predicate Counts(e: Entry, p: Participant, item: Item) {
    e.owner == p &&
    match item
    case PaidIn => e.Deposit?
    case ToppedUp => e.TopUp?
    case Doubled => e.DoubleRefund?
    case Returned => e.Refund? && e.lock == p.payment
    case Strayed => e.Refund? && e.lock != p.payment
  }

  function Sum(log: seq<Entry>, p: Participant, item: Item): int {
    if log == [] then 0
    else
      var e := log[|log| - 1];
      Sum(log[..|log| - 1], p, item) + if Counts(e, p, item) then e.amount else 0
  }

  /** All that was paid for p's cells, less all that was refunded for them. */
  function Balance(log: seq<Entry>, p: Participant): int {
    Sum(log, p, PaidIn) + Sum(log, p, ToppedUp) + Sum(log, p, Doubled) - Sum(log, p, Returned) - Sum(log, p, Strayed)
  }

  function LiveRent(cells: seq<VcLive>, p: Participant): nat {
    if cells == [] then 0
    else
      var c := cells[|cells| - 1];
      LiveRent(cells[..|cells| - 1], p) + if c.depositor == p then c.capacity else 0
  }

  function Effect(e: Entry, p: Participant): int {
    if e.owner != p then 0 else if e.Refund? then -e.amount else e.amount
  }

  lemma {:induction false} Booked(log: seq<Entry>, e: Entry, p: Participant)
    ensures Balance(log + [e], p) == Balance(log, p) + Effect(e, p)
  {
    assert (log + [e])[..|log|] == log;
  }

  /** What one cell adds to the live rent of p. */
  function RentOf(c: VcLive, p: Participant): nat {
    if c.depositor == p then c.capacity else 0
  }

  lemma {:induction false} LiveConcat(a: seq<VcLive>, b: seq<VcLive>, p: Participant)
    ensures LiveRent(a + b, p) == LiveRent(a, p) + LiveRent(b, p)
  {
    if b == [] {
      assert a + b == a;
    } else {
      LiveConcat(a, b[..|b| - 1], p);
      assert (a + b)[..|a + b| - 1] == a + b[..|b| - 1];
    }
  }

  lemma {:induction false} LiveOne(c: VcLive, p: Participant)
    ensures LiveRent([c], p) == RentOf(c, p)
  {
    assert [c][..0] == [];
  }

  lemma {:induction false} LiveWithout(cells: seq<VcLive>, i: nat, p: Participant)
    requires i < |cells|
    ensures LiveRent(cells, p) == LiveRent(Without(cells, i), p) + RentOf(cells[i], p)
  {
    hide LiveRent, RentOf;
    assert cells == cells[..i] + [cells[i]] + cells[i + 1..];
    LiveConcat(cells[..i] + [cells[i]], cells[i + 1..], p);
    LiveConcat(cells[..i], [cells[i]], p);
    LiveConcat(cells[..i], cells[i + 1..], p);
    LiveOne(cells[i], p);
  }

  lemma {:induction false} LiveReplaced(cells: seq<VcLive>, i: nat, c: VcLive, p: Participant)
    requires i < |cells|
    ensures LiveRent(cells[i := c], p) + RentOf(cells[i], p) == LiveRent(cells, p) + RentOf(c, p)
  {
    hide LiveRent, RentOf;
    LiveWithout(cells, i, p);
    LiveWithout(cells[i := c], i, p);
    assert Without(cells[i := c], i) == Without(cells, i);
  }

  /** A cell's capacity is what its status occupies, and its recorded owner is whoever paid for it. */
  predicate Sound(env: Env, c: VcLive) {
    c.capacity == env.Capacity(c.status) && c.status.owner == c.depositor
  }

  predicate AllSound(env: Env, cells: seq<VcLive>) {
    forall i :: 0 <= i < |cells| ==> Sound(env, cells[i])
  }

  lemma {:induction false} StaysSound(env: Env, r: Rent, e: Event)
    requires AllSound(env, r.cells)
    ensures AllSound(env, Next(env, r, e).cells)
  {
    hide MergeCells, Env.Capacity, RefundEntries;
    if e.Merge? && CanMerge(r, e.i, e.j) {
      MergeRefunds(env, r, e.i, e.j, e.block);
    }
  }

  /** What progress and the first force close make of the cell they rewrite: progress replaces its state, the force
      close sets its flag, and everything else is kept. No other cell changes. */
  lemma {:induction false} RewritesMean(env: Env, r: Rent, i: nat, vc: PackedState, submitter: Script, block: nat)
    requires i < |r.cells|
    ensures var n, s := Next(env, r, Progress(i, vc, submitter, block)).cells, r.cells[i].status;
            && n == r.cells[i := n[i]] && n[i].block == block && n[i].depositor == r.cells[i].depositor
            && n[i].status == VirtualChannelStatus(vc, s.parents, s.firstForceClose, s.owner)
    ensures var n, s := Next(env, r, FirstForceClose(i, submitter, block)).cells, r.cells[i].status;
            if s.firstForceClose then n == r.cells
            else && n == r.cells[i := n[i]] && n[i].block == block && n[i].depositor == r.cells[i].depositor
                 && n[i].status == VirtualChannelStatus(s.vcState, s.parents, true, s.owner)
  {}

  /** A second force close needs a flagged cell whose owner's lock can be restored; it spends that cell and no other,
      and the refunds are of its whole capacity. */
  lemma {:induction false} CloseMeans(env: Env, r: Rent, i: nat, locks: (Script, Script), submitter: Script)
    requires i < |r.cells|
    ensures var n, c := Next(env, r, SecondForceClose(i, locks, submitter)), r.cells[i];
            if c.status.firstForceClose && env.psh.OwnerScript(c.status.owner).Some?
            then && n.cells == r.cells[..i] + r.cells[i + 1..] && r.log < n.log
                 && forall e :: e in n.log[|r.log|..] ==> e.owner == c.depositor && e.amount == c.capacity
            else n == r
  {}

  /** A merge moves no rent: the cell it keeps stays as it is, the other one's capacity goes to its owner's default
      lock; it fails exactly if that lock cannot be restored. */
  lemma {:induction false} MergeRefunds(env: Env, r: Rent, i: nat, j: nat, block: nat)
    requires AllSound(env, r.cells) && CanMerge(r, i, j)
    ensures var k := Kept(r.cells, i, j);
            var n, m, removed := Next(env, r, Merge(i, j, block)), i + j - k, r.cells[i + j - k];
            match env.psh.OwnerScript(removed.depositor)
            case None => n == r
            case Some(x) =>
              n == Rent(Without(r.cells[k := r.cells[k].(block := block)], m),
                        r.log + [Refund(x, removed.depositor, removed.capacity)])
  {
    assert Sound(env, r.cells[i]) && Sound(env, r.cells[j]);
  }

  /** Where the kept cell ends up. */
  function KeptAt(cells: seq<VcLive>, i: nat, j: nat): nat
    requires i < |cells| && j < |cells|
  {
    var k := Kept(cells, i, j);
    if i + j - k < k then k - 1 else k
  }

  /** Exactly when a merge keeps the newer state of the two: when the cell it keeps has it. For cells of different
      blocks that is the older one, whatever the versions; of equally old ones the one read second. */
  lemma {:induction false} MergeKeepsNewest(env: Env, r: Rent, i: nat, j: nat, block: nat)
    requires AllSound(env, r.cells) && CanMerge(r, i, j)
    requires env.psh.OwnerScript(r.cells[i + j - Kept(r.cells, i, j)].depositor).Some?
    ensures var n, at := Next(env, r, Merge(i, j, block)).cells, KeptAt(r.cells, i, j);
            var v, w := r.cells[i].status.vcState.version, r.cells[j].status.vcState.version;
            var newest := if v < w then w else v;
            && |n| == |r.cells| - 1 && at < |n|
            && (r.cells[i].block < r.cells[j].block ==> (n[at].status.vcState.version == newest <==> v >= w))
            && (r.cells[i].block >= r.cells[j].block ==> (n[at].status.vcState.version == newest <==> w >= v))
  {
    hide Next, AllSound;
    MergeRefunds(env, r, i, j, block);
  }

  /** Such losses happen: two first disputes, the second one with a newer state, and a merge. */
  lemma {:induction false} MergeForgets(env: Env, p: PackedState, q: PackedState, a: Participant, b: Participant,
                                        swapped: bool)
    requires p.version < q.version && env.psh.OwnerScript(b).Some?
    ensures var merge := if swapped then Merge(1, 0, 3) else Merge(0, 1, 3);
            var r := Run(env, [FirstDispute(p, [], a, 1), FirstDispute(q, [], b, 2), merge]);
            |r.cells| == 1 && r.cells[0].status.vcState == p && r.cells[0].status.owner == a
  {
    var first, second := FirstDispute(p, [], a, 1), FirstDispute(q, [], b, 2);
    var merge := if swapped then Merge(1, 0, 3) else Merge(0, 1, 3);
    RunNext(env, [], first);
    RunNext(env, [first], second);
    RunNext(env, [first, second], merge);
    assert [] + [first] == [first] && [first] + [second] == [first, second];
    assert [first, second] + [merge] == [first, second, merge];
    var two := TwoDisputes(env, p, q, a, b);
    MergeRefunds(env, two, merge.i, merge.j, 3);
  }

  lemma {:induction false} RunNext(env: Env, events: seq<Event>, e: Event)
    ensures Run(env, events + [e]) == Next(env, Run(env, events), e) && Run(env, []) == Rent([], [])
  {
    assert (events + [e])[..|events|] == events;
  }

  lemma {:induction false} TwoDisputes(env: Env, p: PackedState, q: PackedState, a: Participant, b: Participant)
      returns (two: Rent)
    ensures two == Next(env, Next(env, Rent([], []), FirstDispute(p, [], a, 1)), FirstDispute(q, [], b, 2))
    ensures AllSound(env, two.cells) && |two.cells| == 2 && two.cells[0].block == 1 && two.cells[1].block == 2
    ensures two.cells[0].status == VirtualChannelStatus(p, [], false, a) && two.cells[1].depositor == b
  {
    two := Next(env, Next(env, Rent([], []), FirstDispute(p, [], a, 1)), FirstDispute(q, [], b, 2));
  }

  // ---------- conservation ----------

  predicate Shifts(r: Rent, n: Rent, p: Participant) {
    LiveRent(n.cells, p) - LiveRent(r.cells, p) == Balance(n.log, p) - Balance(r.log, p)
  }

  lemma {:induction false} StepShiftsRent(env: Env, r: Rent, e: Event, p: Participant)
    requires AllSound(env, r.cells)
    ensures Shifts(r, Next(env, r, e), p)
  {
    hide Balance, LiveRent, PerunScriptHandler.VcCell, Env.Capacity, CloseCell, MergeCells, Rewrite;
    match e
    case FirstDispute(vc, parents, owner, block) =>
      var n := Next(env, r, e);
      LiveConcat(r.cells, [n.cells[|r.cells|]], p);
      LiveOne(n.cells[|r.cells|], p);
      Booked(r.log, n.log[|r.log|], p);
    case Progress(i, vc, submitter, block) =>
      if i < |r.cells| {
        RewriteShiftsRent(env, r, i, Progressed(r.cells[i].status, vc), submitter, block, p);
      }
    case FirstForceClose(i, submitter, block) =>
      if i < |r.cells| {
        RewriteShiftsRent(env, r, i, ForceClosedOnce(r.cells[i].status), submitter, block, p);
      }
    case Merge(i, j, block) =>
      if CanMerge(r, i, j) {
        MergeShiftsRent(env, r, i, j, block, p);
      }
    case SecondForceClose(i, locks, submitter) =>
      if i < |r.cells| {
        RefundShiftsRent(env, r, i, locks, submitter, p);
      }
  }

  lemma {:induction false} RewriteShiftsRent(env: Env, r: Rent, i: nat, status: VirtualChannelStatus,
                                             submitter: Script, block: nat, p: Participant)
    requires i < |r.cells|
    ensures Shifts(r, Rewrite(env, r, i, status, submitter, block), p)
  {
    hide Balance, LiveRent, Env.Capacity;
    var c := r.cells[i];
    LiveReplaced(r.cells, i, VcLive(env.Capacity(status), status, block, c.depositor), p);
    Booked(r.log, TopUp(submitter, c.depositor, env.Capacity(status) - c.capacity), p);
  }

  lemma {:induction false} MergeShiftsRent(env: Env, r: Rent, i: nat, j: nat, block: nat, p: Participant)
    requires AllSound(env, r.cells) && CanMerge(r, i, j)
    ensures Shifts(r, Next(env, r, Merge(i, j, block)), p)
  {
    hide Balance, LiveRent, Next, AllSound, Kept, PerunScriptHandler.OwnerScript;
    MergeRefunds(env, r, i, j, block);
    var k := Kept(r.cells, i, j);
    var m, stamped := i + j - k, r.cells[k := r.cells[k].(block := block)];
    LiveReplaced(r.cells, k, r.cells[k].(block := block), p);
    LiveWithout(stamped, m, p);
    if env.psh.OwnerScript(r.cells[m].depositor).Some? {
      Booked(r.log, Refund(env.psh.OwnerScript(r.cells[m].depositor).value, r.cells[m].depositor, r.cells[m].capacity),
             p);
    }
  }

  lemma {:induction false} RefundShiftsRent(env: Env, r: Rent, i: nat, locks: (Script, Script), submitter: Script,
                                            p: Participant)
    requires i < |r.cells|
    ensures Shifts(r, CloseCell(env, r, i, locks, submitter), p)
  {
    hide Balance, LiveRent, Without;
    var n, c := CloseCell(env, r, i, locks, submitter), r.cells[i];
    LiveWithout(r.cells, i, p);
    if env.psh.OwnerScript(c.status.owner).Some? {
      var x := env.psh.OwnerScript(c.status.owner).value;
      var one, extra := Refund(x, c.depositor, c.capacity), DoubleRefund(submitter, c.depositor, c.capacity);
      assert n.log == if x == locks.0 == locks.1 then r.log + [one] + [one] + [extra] else r.log + [one];
      Booked(r.log, one, p);
      Booked(r.log + [one], one, p);
      Booked(r.log + [one] + [one], extra, p);
    }
  }

  /** Rent conservation over every run, owner by owner: what is live, what came back to the lock it was paid from and
      what strayed to another one add up to what the owner paid in, what submitters added when the size of a status
      changed, and what they paid for refunds to both parties. */
  lemma {:induction false} RunKeepsRent(env: Env, events: seq<Event>, p: Participant)
    ensures var r := Run(env, events);
            && AllSound(env, r.cells)
            && LiveRent(r.cells, p) + Sum(r.log, p, Returned) + Sum(r.log, p, Strayed) ==
               Sum(r.log, p, PaidIn) + Sum(r.log, p, ToppedUp) + Sum(r.log, p, Doubled)
  {
    if events != [] {
      var before := Run(env, events[..|events| - 1]);
      RunKeepsRent(env, events[..|events| - 1], p);
      hide Next, LiveRent, AllSound, Sum;
      StaysSound(env, before, events[|events| - 1]);
      StepShiftsRent(env, before, events[|events| - 1], p);
    }
  }

  // ---------- which lock pays, and which is paid ----------

  /** Deposits come from the owner's recorded lock, refunds go to the default lock of its key. */
  predicate FollowsKey(psh: PerunScriptHandler, e: Entry) {
    (e.Deposit? ==> e.lock == e.owner.payment) && (e.Refund? ==> psh.OwnerScript(e.owner) == Some(e.lock))
  }

  lemma {:induction false} EntriesFollowKeys(env: Env, events: seq<Event>)
    ensures forall e :: e in Run(env, events).log ==> FollowsKey(env.psh, e)
  {
    if events != [] {
      var before := Run(env, events[..|events| - 1]);
      EntriesFollowKeys(env, events[..|events| - 1]);
      RunKeepsRent(env, events[..|events| - 1], Participant(0, 1, 1));
      hide Run;
      NextFollowsKeys(env, before, events[|events| - 1]);
    }
  }

  lemma {:induction false} NextFollowsKeys(env: Env, r: Rent, e: Event)
    requires AllSound(env, r.cells) && forall x :: x in r.log ==> FollowsKey(env.psh, x)
    ensures forall x :: x in Next(env, r, e).log ==> FollowsKey(env.psh, x)
  {
    if e.Merge? && CanMerge(r, e.i, e.j) {
      MergeRefunds(env, r, e.i, e.j, e.block);
    }
    if e.SecondForceClose? && e.i < |r.cells| {
      assert Sound(env, r.cells[e.i]);
    }
  }

  /** Over every run all refunds of an owner go to the lock its rent was paid from if and only if that is the default
      lock of its public key; if it is not, none does: everything refunded has strayed. */
  lemma {:induction false} RentReturnsToDefaultLocks(env: Env, events: seq<Event>, p: Participant)
    ensures var r := Run(env, events);
            && (forall e :: e in r.log && e.Refund? && e.owner == p ==>
                  (e.lock == p.payment <==> env.psh.OwnerScript(p) == Some(p.payment)))
            && Sum(r.log, p, if env.psh.OwnerScript(p) == Some(p.payment) then Strayed else Returned) == 0
  {
    EntriesFollowKeys(env, events);
    var log := Run(env, events).log;
    assert forall e :: e in log && e.Refund? && e.owner == p ==> FollowsKey(env.psh, e);
    NothingCounts(log, p, if env.psh.OwnerScript(p) == Some(p.payment) then Strayed else Returned);
  }

  lemma {:induction false} NothingCounts(log: seq<Entry>, p: Participant, item: Item)
    requires forall e :: e in log ==> !Counts(e, p, item)
    ensures Sum(log, p, item) == 0
  {
    if log != [] {
      NothingCounts(log[..|log| - 1], p, item);
      assert log[|log| - 1] in log;
    }
  }

  /** In particular a client with another lock than its key's default one loses all of its rent to that default lock. */
  lemma {:induction false} RentStrays(env: Env, vc: PackedState, key: nat, lock: Script, locks: (Script, Script),
                                      submitter: Script)
    requires env.psh.sighash(key).Some? && env.psh.sighash(key).value != lock
    ensures var p := Participant(key, lock, lock);
            var r := Run(env, [FirstDispute(vc, [], p, 1), FirstForceClose(0, submitter, 2),
                               SecondForceClose(0, locks, submitter)]);
            r.cells == [] && Sum(r.log, p, Returned) == 0 &&
            Sum(r.log, p, Strayed) == Sum(r.log, p, PaidIn) + Sum(r.log, p, ToppedUp) + Sum(r.log, p, Doubled)
  {
    var p := Participant(key, lock, lock);
    var first, second, third := FirstDispute(vc, [], p, 1), FirstForceClose(0, submitter, 2),
      SecondForceClose(0, locks, submitter);
    var all := [first, second, third];
    assert all[..2] == [first, second] && [first, second][..1] == [first] && [first][..0] == [];
    assert Run(env, []) == Rent([], []);
    var one, two := Run(env, [first]), Run(env, [first, second]);
    assert one == Next(env, Rent([], []), first) && two == Next(env, one, second);
    assert Run(env, all) == Next(env, two, third) && Run(env, all).cells == [];
    hide *;
    LiveOne(VcLive(0, VirtualChannelStatus(vc, [], false, p), 0, p), p);
    RunKeepsRent(env, all, p);
    RentReturnsToDefaultLocks(env, all, p);
    OtherLock(env.psh, p);
  }

  lemma {:induction false} OtherLock(psh: PerunScriptHandler, p: Participant)
    ensures psh.OwnerScript(p) == psh.sighash(p.pubKey)
  {}

  /** With statuses of one size there are no top-ups. */
  predicate FixedSize(env: Env, events: seq<Event>) {
    forall n :: 0 <= n < |events| ==> KeepsSize(env, Run(env, events[..n]), events[n])
  }

  predicate KeepsSize(env: Env, r: Rent, e: Event) {
    match e
    case Progress(i, vc, _, _) =>
      i < |r.cells| ==> |env.psh.encodeVc(Progressed(r.cells[i].status, vc))| == |env.psh.encodeVc(r.cells[i].status)|
    case FirstForceClose(i, _, _) =>
      i < |r.cells| ==> |env.psh.encodeVc(ForceClosedOnce(r.cells[i].status))| == |env.psh.encodeVc(r.cells[i].status)|
    case _ => true
  }

  predicate PaidByOwner(e: Entry) {
    (e.Deposit? || e.TopUp?) && e.amount != 0 ==> e.lock == e.owner.payment
  }

  /** So only owners pay rent, each from its recorded lock, as long as no update changes the size of a status. */
  lemma {:induction false} OnlyOwnersPay(env: Env, events: seq<Event>)
    requires FixedSize(env, events)
    ensures forall e :: e in Run(env, events).log ==> PaidByOwner(e)
  {
    if events != [] {
      var n := |events| - 1;
      var before := Run(env, events[..n]);
      forall k | 0 <= k < n ensures KeepsSize(env, Run(env, events[..n][..k]), events[..n][k]) {
        assert events[..n][..k] == events[..k];
      }
      OnlyOwnersPay(env, events[..n]);
      RunKeepsRent(env, events[..n], Participant(0, 1, 1));
      assert KeepsSize(env, before, events[n]);
      hide Next, KeepsSize, AllSound;
      OwnersPayNext(env, before, events[n]);
    }
  }

  lemma {:induction false} OwnersPayNext(env: Env, r: Rent, e: Event)
    requires AllSound(env, r.cells) && KeepsSize(env, r, e) && forall x :: x in r.log ==> PaidByOwner(x)
    ensures forall x :: x in Next(env, r, e).log ==> PaidByOwner(x)
  {}

  // ---------- in the transactions ----------

  /** What a second force close pays out of the virtual channel cell to lock x. */
  function RefundTotal(x: Script, locks: (Script, Script), capacity: uint64): nat {
    PerunScriptHandler.Refunds(x, locks, capacity).0 + PerunScriptHandler.Refunds(x, locks, capacity).1 +
    Ckb(PerunScriptHandler.RefundCells(x, locks, capacity))
  }

  /** Exactly once, unless both parties are paid to the owner's script. */
  lemma {:induction false} RefundedOnce(x: Script, locks: (Script, Script), capacity: uint64)
    ensures RefundTotal(x, locks, capacity) == if x == locks.0 == locks.1 then 2 * capacity else capacity
  {
    SingleCell(1, PaymentCell(x, capacity));
    assert Ckb([]) == 0;
  }

  lemma {:induction false} SecondForceCloseConserves(
    psh: PerunScriptHandler, channel: OutPoint, vcCell: OutPoint, assets: seq<OutPoint>, minCkb: OutPoint,
    locks: (Script, Script), s: State, vc: State, indexMap: seq<nat>, channelCapacity: uint64, vcCapacity: uint64,
    vcStatus: VirtualChannelStatus, h: Script, x: Script, d: Draft, shares: (Share, Share), rows: seq<SudtBalances>,
    vrows: seq<SudtBalances>)
    requires WellFormed(s) && WellFormed(vc) && Permutes(indexMap) && psh.OwnerScript(vcStatus.owner) == Some(x)
    requires VcShares(s, vc, indexMap, channelCapacity, PerunScriptHandler.Refunds(x, locks, vcCapacity)) == Ok(shares)
    requires psh.SecondForceCloseDraft(channel, vcCell, assets, minCkb, locks, s, vc, indexMap, channelCapacity,
                                       vcCapacity, vcStatus) == Ok(d)
    requires SudtsOf(s) == Ok(rows) && SudtsOf(vc) == Ok(vrows) && Aligned(rows, vrows) && SmallAmounts(rows, vrows)
    ensures SudtTotal(h, d.outputs) + RowsTotal(h, Unseen(rows, vrows)) == RowsTotal(h, rows) + RowsTotal(h, vrows)
    ensures var due := StateCkb(s) + StateCkb(vc) + channelCapacity + 2 * RowsCapacity(rows) +
                       (if x == locks.0 == locks.1 then 2 * vcCapacity else vcCapacity);
            due < TWO_64 ==> Ckb(d.outputs) + TotalDust(psh.minCapacity, locks, shares) == due
  {
    hide VcShares, SettlementCells, SudtsOf, StateCkb, RowsCapacity, RowsTotal, Aligned, SmallAmounts, Unseen,
         TotalDust, Ckb, SudtTotal;
    var refunds := PerunScriptHandler.Refunds(x, locks, vcCapacity);
    var settled, back := SettlementCells(psh.minCapacity, locks, shares, true),
      PerunScriptHandler.RefundCells(x, locks, vcCapacity);
    VcSettlementConserves(psh.minCapacity, locks, s, vc, indexMap, channelCapacity, refunds, h, shares, rows, vrows);
    RefundedOnce(x, locks, vcCapacity);
    CellsConcat(h, settled, back);
    NoSudt(h, x, vcCapacity);
  }

  /** CKBytes of the cells locked by x, and refunds to x. */
  function CkbTo(x: Script, cells: seq<Cell>): nat {
    if cells == [] then 0
    else
      var c := cells[|cells| - 1];
      CkbTo(x, cells[..|cells| - 1]) + if c.output.lock == x then c.output.capacity else 0
  }

  function RefundedTo(x: Script, entries: seq<Entry>): int {
    if entries == [] then 0
    else
      var e := entries[|entries| - 1];
      RefundedTo(x, entries[..|entries| - 1]) + if e.Refund? && e.lock == x then e.amount else 0
  }

  lemma {:induction false} CkbToConcat(x: Script, a: seq<Cell>, b: seq<Cell>)
    ensures CkbTo(x, a + b) == CkbTo(x, a) + CkbTo(x, b)
  {
    if b == [] {
      assert a + b == a;
    } else {
      CkbToConcat(x, a, b[..|b| - 1]);
      assert (a + b)[..|a + b| - 1] == a + b[..|b| - 1];
    }
  }

  lemma {:induction false} CkbToOneLock(x: Script, lock: Script, cells: seq<Cell>)
    requires forall c :: c in cells ==> c.output.lock == lock
    ensures CkbTo(x, cells) == if x == lock then Ckb(cells) else 0
  {
    if cells != [] {
      assert cells[|cells| - 1] in cells;
      CkbToOneLock(x, lock, cells[..|cells| - 1]);
    }
  }

  /** The refunds booked for a second force close are, lock by lock, what its draft adds: to the balances of the
      parties, or as a cell of its own. */
  lemma {:induction false} RefundsAreDrafted(x: Script, owner: Participant, locks: (Script, Script), capacity: uint64,
                                             y: Script)
    ensures var refunds := PerunScriptHandler.Refunds(x, locks, capacity);
            RefundedTo(y, RefundEntries(x, owner, locks, capacity)) ==
            (if y == locks.0 then refunds.0 else 0) + (if y == locks.1 then refunds.1 else 0) +
            CkbTo(y, PerunScriptHandler.RefundCells(x, locks, capacity))
  {
    var one := Refund(x, owner, capacity);
    assert [one][..0] == [] && [one, one][..1] == [one] && [one] + [one] == [one, one];
    assert RefundedTo(y, [one]) == (if x == y then capacity else 0) && RefundedTo(y, [one, one]) ==
           if x == y then 2 * capacity else 0;
    assert RefundEntries(x, owner, locks, capacity) == if x == locks.0 == locks.1 then [one, one] else [one];
    var cell := PaymentCell(x, capacity);
    assert [cell][..0] == [] && CkbTo(y, [cell]) == if x == y then capacity else 0;
  }

  /** What a party is owed in CKBytes, refunds aside: its own balances in both channels, party 0 the channel cell's
      capacity, and the capacity of its SUDT cells. */
  function Owed(s: State, vc: State, indexMap: seq<nat>, part: nat, channelCapacity: uint64,
                rows: seq<SudtBalances>): int
    requires WellFormed(s) && WellFormed(vc) && part < 2 && part < |indexMap| && indexMap[part] < 2
  {
    Lifecycle.OwnCkb(s, part, |s.assets|) + Lifecycle.OwnCkb(vc, indexMap[part], |vc.assets|) +
    (if part == 0 then channelCapacity else 0) + RowsCapacity(rows)
  }

  lemma {:induction false} MergedCapacity(rows: seq<SudtBalances>, vrows: seq<SudtBalances>, part: nat, mapped: nat)
    requires part < 2 && mapped < 2
    ensures CapacitySum(MergedClaims(rows, vrows, part, mapped)) == RowsCapacity(rows)
  {
    if rows != [] {
      MergedCapacity(rows[..|rows| - 1], vrows, part, mapped);
      LastMerged(1, rows, vrows, part, mapped);
    }
  }

  lemma {:induction false} PartyOwed(
    min: MinCapacity, lock: Script, s: State, vc: State, indexMap: seq<nat>, part: nat, channelCapacity: uint64,
    refund: uint64, share: Share, rows: seq<SudtBalances>, x: Script) returns (carries: nat)
    requires WellFormed(s) && WellFormed(vc) && Distinct(s.assets) && Distinct(vc.assets) && part < 2
    requires part < |indexMap| && indexMap[part] < 2
             && VcPartyShare(s, vc, part, indexMap, channelCapacity, refund) == Ok(share)
    requires SudtsOf(s) == Ok(rows)
    ensures CkbTo(x, PartyCells(min, lock, share, true)) +
            (if x == lock then Dust(min, lock, share) + TWO_64 * carries else 0) ==
            if x == lock then Owed(s, vc, indexMap, part, channelCapacity, rows) + refund else 0
  {
    ShareCapacity(s, vc, indexMap, part, channelCapacity, refund, share, rows);
    hide *;
    var c := Lifecycle.VcShareIsOwn(s, vc, part, indexMap, channelCapacity, refund, share);
    PartyPaid(min, lock, share, true, 1);
    PaidToParty(min, lock, share, true);
    CkbToOneLock(x, lock, PartyCells(min, lock, share, true));
    carries := c + PartyCarry(min, lock, share);
    OwedIs(s, vc, indexMap, part, channelCapacity, rows);
  }

  lemma {:induction false} OwedIs(s: State, vc: State, indexMap: seq<nat>, part: nat, channelCapacity: uint64,
                                  rows: seq<SudtBalances>)
    requires WellFormed(s) && WellFormed(vc) && part < 2 && part < |indexMap| && indexMap[part] < 2
    ensures Owed(s, vc, indexMap, part, channelCapacity, rows) ==
            Lifecycle.OwnCkb(s, part, |s.assets|) + Lifecycle.OwnCkb(vc, indexMap[part], |vc.assets|) +
            (if part == 0 then channelCapacity else 0) + RowsCapacity(rows)
  {}

  lemma {:induction false} ShareCapacity(
    s: State, vc: State, indexMap: seq<nat>, part: nat, channelCapacity: uint64, refund: uint64, share: Share,
    rows: seq<SudtBalances>)
    requires WellFormed(s) && WellFormed(vc) && part < 2 && part < |indexMap| && indexMap[part] < 2
             && SudtsOf(s) == Ok(rows)
    requires VcPartyShare(s, vc, part, indexMap, channelCapacity, refund) == Ok(share)
    ensures CapacitySum(share.claims) == RowsCapacity(rows)
  {
    hide SudtsOf, CkbBalance, VcCkbBalance, MergedClaims;
    assert SudtsOf(vc).Ok?;
    MergedCapacity(rows, SudtsOf(vc).value, part, indexMap[part]);
  }

  /** Lock by lock, the outputs of a second force close pay what the parties with that lock are owed and the refunds
      booked for it, but for their dust. */
  lemma {:induction false} SecondForceClosePays(
    psh: PerunScriptHandler, channel: OutPoint, vcCell: OutPoint, assets: seq<OutPoint>, minCkb: OutPoint,
    locks: (Script, Script), s: State, vc: State, indexMap: seq<nat>, channelCapacity: uint64, vcCapacity: uint64,
    vcStatus: VirtualChannelStatus, x: Script, d: Draft, shares: (Share, Share), rows: seq<SudtBalances>, y: Script)
    requires WellFormed(s) && WellFormed(vc) && Distinct(s.assets) && Distinct(vc.assets) && SudtsOf(s) == Ok(rows)
    requires |indexMap| >= 2 && indexMap[0] < 2 && indexMap[1] < 2 && psh.OwnerScript(vcStatus.owner) == Some(x)
    requires VcShares(s, vc, indexMap, channelCapacity, PerunScriptHandler.Refunds(x, locks, vcCapacity)) == Ok(shares)
    requires psh.SecondForceCloseDraft(channel, vcCell, assets, minCkb, locks, s, vc, indexMap, channelCapacity,
                                       vcCapacity, vcStatus) == Ok(d)
    ensures Same64(CkbTo(y, d.outputs) +
                   (if y == locks.0 then Dust(psh.minCapacity, locks.0, shares.0) else 0) +
                   (if y == locks.1 then Dust(psh.minCapacity, locks.1, shares.1) else 0),
                   (if y == locks.0 then Owed(s, vc, indexMap, 0, channelCapacity, rows) else 0) +
                   (if y == locks.1 then Owed(s, vc, indexMap, 1, channelCapacity, rows) else 0) +
                   RefundedTo(y, RefundEntries(x, vcStatus.owner, locks, vcCapacity)))
  {
    hide VcPartyShare, PartyCells, Owed, SudtsOf, Dust, Distinct, RefundEntries, Same64, CkbTo, RefundedTo;
    var refunds := PerunScriptHandler.Refunds(x, locks, vcCapacity);
    var a, b := PartyCells(psh.minCapacity, locks.0, shares.0, true),
      PartyCells(psh.minCapacity, locks.1, shares.1, true);
    var back := PerunScriptHandler.RefundCells(x, locks, vcCapacity);
    assert d.outputs == a + b + back;
    CkbToConcat(y, a + b, back);
    CkbToConcat(y, a, b);
    var m := PartyOwed(psh.minCapacity, locks.0, s, vc, indexMap, 0, channelCapacity, refunds.0, shares.0, rows, y);
    var n := PartyOwed(psh.minCapacity, locks.1, s, vc, indexMap, 1, channelCapacity, refunds.1, shares.1, rows, y);
    RefundsAreDrafted(x, vcStatus.owner, locks, vcCapacity, y);
    var dust := (if y == locks.0 then Dust(psh.minCapacity, locks.0, shares.0) else 0) +
                (if y == locks.1 then Dust(psh.minCapacity, locks.1, shares.1) else 0);
    Carried(CkbTo(y, d.outputs) + dust, (if y == locks.0 then m else 0) + (if y == locks.1 then n else 0),
            (if y == locks.0 then Owed(s, vc, indexMap, 0, channelCapacity, rows) else 0) +
            (if y == locks.1 then Owed(s, vc, indexMap, 1, channelCapacity, rows) else 0) +
            RefundedTo(y, RefundEntries(x, vcStatus.owner, locks, vcCapacity)));
  }

  /** The first force close pays both channels' balances and carries the virtual channel cell on, flagged. */
  lemma {:induction false} FirstForceCloseConserves(
    psh: PerunScriptHandler, channel: OutPoint, vcCell: OutPoint, assets: seq<OutPoint>, locks: (Script, Script),
    s: State, vc: State, indexMap: seq<nat>, channelCapacity: uint64, vcts: Script, vcStatus: VirtualChannelStatus,
    h: Script, d: Draft, shares: (Share, Share), rows: seq<SudtBalances>, vrows: seq<SudtBalances>)
    requires WellFormed(s) && WellFormed(vc) && Permutes(indexMap) && h != vcts
    requires VcShares(s, vc, indexMap, channelCapacity, (0, 0)) == Ok(shares)
    requires psh.FirstForceCloseDraft(channel, vcCell, assets, locks, s, vc, indexMap, channelCapacity, vcts, vcStatus)
             == Ok(d)
    requires SudtsOf(s) == Ok(rows) && SudtsOf(vc) == Ok(vrows) && Aligned(rows, vrows) && SmallAmounts(rows, vrows)
    ensures d.outputs != [] && d.outputs[|d.outputs| - 1] == psh.VcCell(vcts, ForceClosedOnce(vcStatus))
    ensures SudtTotal(h, d.outputs) + RowsTotal(h, Unseen(rows, vrows)) == RowsTotal(h, rows) + RowsTotal(h, vrows)
    ensures var due, kept := StateCkb(s) + StateCkb(vc) + channelCapacity + 2 * RowsCapacity(rows),
            d.outputs[|d.outputs| - 1].output.capacity;
            due < TWO_64 ==> Ckb(d.outputs) + TotalDust(psh.minCapacity, locks, shares) == due + kept
  {
    hide VcShares, SettlementCells, SudtsOf, StateCkb, RowsCapacity, RowsTotal, Aligned, SmallAmounts, Unseen,
         TotalDust, Ckb, SudtTotal;
    var settled, cell := SettlementCells(psh.minCapacity, locks, shares, true),
      psh.VcCell(vcts, ForceClosedOnce(vcStatus));
    assert d.outputs == settled + [cell];
    VcSettlementConserves(psh.minCapacity, locks, s, vc, indexMap, channelCapacity, (0, 0), h, shares, rows, vrows);
    CellsConcat(h, settled, [cell]);
    SingleCell(h, cell);
  }

  lemma {:induction false} NoSudt(h: Script, lock: Script, capacity: uint64)
    ensures SudtTotal(h, []) == 0 && SudtTotal(h, [PaymentCell(lock, capacity)]) == 0
  {
    SingleCell(h, PaymentCell(lock, capacity));
  }
}

/** channel/funder/funder.go: party A opens the channel, waits for it to be funded and otherwise aborts; party B waits
    for it to be opened and funds it. Both run concurrently against the ledger, and each waits for what it has sent. */
module Funding {
  /** The channel cell; `id` is its out-point. */
  datatype Chain = Unopened | Live(id: nat, funded: bool) | Gone

  /** Abort and Fund consume the channel cell they have read. */
  datatype Tx = OpenTx | AbortTx(id: nat) | FundTx(id: nat)

  /** Sending hands the transaction to the ledger, fails, or hands it over and reports an error all the same. */
  datatype Sending = Sent | NotSent | SentUnnoticed

  datatype Why = Cancelled | TimedOut

  /** fundPartyA. */
  datatype PartyA =
    | Starting
    | Opening
    | Polling(i: nat)
    | Aborting(why: Why)
    | AbortRead(why: Why, id: nat)
    | AbortSent(why: Why, id: nat)
    | Returned(ok: bool, sawFunded: bool)

  /** fundPartyB. Funding reads the live cell again. */
  datatype PartyB = Waiting | Funding | FundRead(id: nat) | FundSent(id: nat) | Finished(ok: bool)

  /** `pool` holds what has been sent and may still be committed. */
  datatype World = World(chain: Chain, a: PartyA, b: PartyB, nextId: nat, pool: set<Tx>, committed: set<Tx>)

  /** Any step may fail for reasons of its own: an RPC error, a missing cell, a transaction that does not build. To give
      up waiting is to return an error, for a cancelled context, a failed RPC or a rejected transaction. */
  datatype Event =
    | AOpens(sending: Sending) | APolls(fails: bool) | ACancels | AReads(fails: bool) | AAborts(sending: Sending)
    | AWaits(givesUp: bool)
    | BPolls(fails: bool, integrity: bool) | BCancels | BReads(fails: bool) | BFunds(sending: Sending)
    | BWaits(givesUp: bool)
    | Commits(tx: Tx) | DisputeAccepted | CloseAccepted

  datatype Setup = Setup(maxIterations: nat, initiallyFunded: bool)

  function Send(pool: set<Tx>, tx: Tx, sending: Sending): set<Tx> {
    if sending == NotSent then pool else pool + {tx}
  }

  function NextA(c: Setup, w: World, e: Event): World {
    match (e, w.a)
    case (AOpens(sending), Starting) =>
      w.(a := if sending == Sent then Opening else Returned(false, false), pool := Send(w.pool, OpenTx, sending))
    case (AWaits(givesUp), Opening) =>
      if givesUp then w.(a := Returned(false, false))
      else if OpenTx in w.committed then w.(a := AfterPoll(c, 0))
      else w
    case (APolls(fails), Polling(i)) =>
      if fails || !w.chain.Live? || !w.chain.funded then w.(a := AfterPoll(c, i + 1)) else w.(a := Returned(true, true))
    case (ACancels, Polling(i)) => w.(a := Aborting(Cancelled))
    case (AReads(fails), Aborting(why)) =>
      if fails || !w.chain.Live? then w.(a := Returned(false, false)) else w.(a := AbortRead(why, w.chain.id))
    case (AAborts(sending), AbortRead(why, id)) =>
      w.(a := if sending == Sent then AbortSent(why, id) else Returned(false, false),
         pool := Send(w.pool, AbortTx(id), sending))
    case (AWaits(givesUp), AbortSent(why, id)) =>
      if givesUp then w.(a := Returned(false, false))
      else if AbortTx(id) in w.committed then w.(a := Returned(why == TimedOut, false))
      else w
    case _ => w
  }

  function AfterPoll(c: Setup, i: nat): PartyA {
    if i < c.maxIterations then Polling(i) else Aborting(TimedOut)
  }

  function NextB(w: World, e: Event): World {
    match (e, w.b)
    case (BPolls(fails, integrity), Waiting) =>
      if fails || !w.chain.Live? then w
      else if !integrity then w.(b := Finished(false))
      else if w.chain.funded then w.(b := Finished(true))
      else w.(b := Funding)
    case (BCancels, Waiting) => w.(b := Finished(false))
    case (BReads(fails), Funding) =>
      if fails || !w.chain.Live? then w.(b := Finished(false)) else w.(b := FundRead(w.chain.id))
    case (BFunds(sending), FundRead(id)) =>
      w.(b := if sending == Sent then FundSent(id) else Finished(false), pool := Send(w.pool, FundTx(id), sending))
    case (BWaits(givesUp), FundSent(id)) =>
      if givesUp then w.(b := Finished(false)) else if FundTx(id) in w.committed then w.(b := Finished(true)) else w
    case _ => w
  }

  /** The contract refuses to abort or fund a funded channel; a spent cell cannot be consumed. */
  predicate Acceptable(chain: Chain, tx: Tx) {
    match tx
    case OpenTx => chain == Unopened
    case AbortTx(id) => chain == Live(id, false)
    case FundTx(id) => chain == Live(id, false)
  }

  /** The ledger commits what has been sent, if it is still acceptable, in any order and at any time. Once funded, the
      channel can be disputed and closed. */
  function NextLedger(c: Setup, w: World, e: Event): World {
    match e
    case Commits(tx) =>
      if tx !in w.pool || !Acceptable(w.chain, tx) then w
      else w.(chain := if tx.AbortTx? then Gone else Live(w.nextId, tx.FundTx? || c.initiallyFunded),
              nextId := w.nextId + 1, pool := w.pool - {tx}, committed := w.committed + {tx})
    case DisputeAccepted =>
      if w.chain.Live? && w.chain.funded then w.(chain := Live(w.nextId, true), nextId := w.nextId + 1) else w
    case CloseAccepted => if w.chain.Live? && w.chain.funded then w.(chain := Gone) else w
    case _ => w
  }

  function Next(c: Setup, w: World, e: Event): World {
    match e
    case AOpens(_) => NextA(c, w, e)
    case APolls(_) => NextA(c, w, e)
    case ACancels => NextA(c, w, e)
    case AReads(_) => NextA(c, w, e)
    case AAborts(_) => NextA(c, w, e)
    case AWaits(_) => NextA(c, w, e)
    case BPolls(_, _) => NextB(w, e)
    case BCancels => NextB(w, e)
    case BReads(_) => NextB(w, e)
    case BFunds(_) => NextB(w, e)
    case BWaits(_) => NextB(w, e)
    case _ => NextLedger(c, w, e)
  }

  function Start(): World { World(Unopened, Starting, Waiting, 0, {}, {}) }

  function RunFrom(c: Setup, w: World, events: seq<Event>): World
    decreases |events|
  {
    if events == [] then w
    else Next(c, RunFrom(c, w, events[..|events| - 1]), events[|events| - 1])
  }

  function Run(c: Setup, events: seq<Event>): World { RunFrom(c, Start(), events) }

  // ---------- safety ----------

  ghost predicate Aborted(w: World) { exists id :: AbortTx(id) in w.committed }

  ghost predicate FundedByB(w: World) { exists id :: FundTx(id) in w.committed }

  /** Has the channel been funded, at the start or by B? */
  ghost predicate WasFunded(c: Setup, w: World) {
    FundedByB(w) || (c.initiallyFunded && OpenTx in w.committed)
  }

  /** What each party has sent, by what it has left to do. */
  ghost predicate OnlyOwn(w: World) {
    && (OpenTx in w.pool + w.committed ==> w.a != Starting)
    && (forall id: nat :: AbortTx(id) in w.pool + w.committed ==>
          id < w.nextId && (w.a.Returned? || (w.a.AbortSent? && w.a.id == id)))
    && (forall id: nat :: FundTx(id) in w.pool + w.committed ==>
          id < w.nextId && (w.b.Finished? || (w.b.FundSent? && w.b.id == id)))
    && (w.a.AbortRead? || w.a.AbortSent? ==> w.a.id < w.nextId)
    && (w.b.FundRead? || w.b.FundSent? ==> w.b.id < w.nextId)
    && (w.chain.Live? ==> w.chain.id < w.nextId)
    // Nothing consumes a channel cell that has never been there.
    && (w.chain == Unopened ==> w.pool <= {OpenTx} && !w.a.AbortRead? && !w.b.FundRead?)
  }

  /** Abort and Fund both consume the unfunded cell, so only one of them is committed, and once. */
  ghost predicate OneOfThem(c: Setup, w: World) {
    && !(Aborted(w) && WasFunded(c, w))
    && (forall s, t :: s in w.committed - {OpenTx} && t in w.committed - {OpenTx} ==> s == t)
    && (w.chain == Unopened <==> OpenTx !in w.committed)
    && (w.chain == Unopened ==> w.committed == {})
    && (w.chain.Live? ==> !Aborted(w) && (w.chain.funded <==> WasFunded(c, w)))
    && (w.chain == Gone ==> Aborted(w) || WasFunded(c, w))
  }

  /** A's success means it saw the channel funded, or that its abort after the last poll went through. B's success means
      the channel was funded. */
  ghost predicate HonestResults(c: Setup, w: World) {
    && (w.a.Returned? && w.a.sawFunded ==> w.a.ok && WasFunded(c, w))
    && (w.a.Returned? && w.a.ok && !w.a.sawFunded ==> Aborted(w))
    && (w.b.Finished? && w.b.ok ==> WasFunded(c, w))
  }

  ghost predicate Safe(c: Setup, w: World) {
    OnlyOwn(w) && OneOfThem(c, w) && HonestResults(c, w)
  }

  /** Nothing that has been committed is lost. */
  lemma {:induction false} CommittedStays(c: Setup, w: World, e: Event)
    ensures w.committed <= Next(c, w, e).committed
    ensures WasFunded(c, w) ==> WasFunded(c, Next(c, w, e))
    ensures Aborted(w) ==> Aborted(Next(c, w, e))
  {
    var v := Next(c, w, e);
    assert w.committed <= v.committed;
    if Aborted(w) {
      var id :| AbortTx(id) in w.committed;
      assert AbortTx(id) in v.committed;
    }
    if FundedByB(w) {
      var id :| FundTx(id) in w.committed;
      assert FundTx(id) in v.committed;
    }
  }

  lemma {:induction false} StaysOwn(c: Setup, w: World, e: Event)
    requires OnlyOwn(w)
    ensures OnlyOwn(Next(c, w, e))
  {
    hide OnlyOwn, NextA, NextB, NextLedger;
    StaysOwnByA(c, w, e);
    StaysOwnByB(w, e);
    StaysOwnByLedger(c, w, e);
  }

  lemma {:induction false} StaysOwnByA(c: Setup, w: World, e: Event)
    requires OnlyOwn(w)
    ensures OnlyOwn(NextA(c, w, e))
  {}

  lemma {:induction false} StaysOwnByB(w: World, e: Event)
    requires OnlyOwn(w)
    ensures OnlyOwn(NextB(w, e))
  {}

  lemma {:induction false} StaysOwnByLedger(c: Setup, w: World, e: Event)
    requires OnlyOwn(w)
    ensures OnlyOwn(NextLedger(c, w, e))
  {}

  lemma {:induction false} NoneSoFar(c: Setup, w: World)
    requires OneOfThem(c, w) && w.chain.Live? && !w.chain.funded
    ensures w.committed - {OpenTx} == {}
  {
    forall t | t in w.committed ensures t.AbortTx? ==> Aborted(w) ensures t.FundTx? ==> FundedByB(w) {}
  }

  lemma {:induction false} StaysOne(c: Setup, w: World, e: Event)
    requires OneOfThem(c, w)
    ensures OneOfThem(c, Next(c, w, e))
  {
    CommittedStays(c, w, e);
    var v := Next(c, w, e);
    if v.committed != w.committed {
      var tx := e.tx;
      assert v.committed == w.committed + {tx} && Acceptable(w.chain, tx);
      if tx.OpenTx? { assert v.committed - {OpenTx} == {}; } else { NoneSoFar(c, w); }
      match tx {
        case OpenTx =>
        case AbortTx(id) => assert AbortTx(id) in v.committed;
        case FundTx(id) => assert FundTx(id) in v.committed;
      }
    }
  }

  lemma {:induction false} StaysHonest(c: Setup, w: World, e: Event)
    requires OneOfThem(c, w) && HonestResults(c, w)
    ensures HonestResults(c, Next(c, w, e))
  {
    CommittedStays(c, w, e);
  }

  lemma {:induction false} StaysSafe(c: Setup, w: World, e: Event)
    requires Safe(c, w)
    ensures Safe(c, Next(c, w, e))
  {
    StaysOwn(c, w, e);
    StaysOne(c, w, e);
    StaysHonest(c, w, e);
  }

  /** In every interleaving, whatever is lost on the way or given up early: the unfunded channel cell is consumed by at
      most one of Abort and Fund, and funds of B are never locked in a channel that A has aborted or goes on to
      abort. */
  lemma {:induction false} RaceIsSafe(c: Setup, events: seq<Event>)
    ensures Safe(c, Run(c, events))
  {
    if events != [] {
      RaceIsSafe(c, events[..|events| - 1]);
      hide Safe, Next;
      StaysSafe(c, Run(c, events[..|events| - 1]), events[|events| - 1]);
    }
  }

  /** Success of A is no proof of a funded channel: it means so exactly if A saw it funded. Otherwise it is the
      successful abort after the last poll that made A return no error. */
  lemma {:induction false} SuccessMeansFunded(c: Setup, events: seq<Event>)
    ensures var w := Run(c, events);
            w.a.Returned? && w.a.ok ==> (WasFunded(c, w) <==> w.a.sawFunded) && (Aborted(w) <==> !w.a.sawFunded)
  {
    RaceIsSafe(c, events);
  }

  /** That case is real: nobody joins, and A returns success from a channel it has just aborted. */
  lemma {:induction false} AbortedSuccess()
    ensures exists events ::
              var w := Run(Setup(1, false), events);
              w.a.Returned? && w.a.ok && w.chain == Gone && Aborted(w) && !FundedByB(w)
  {
    hide Next, RunFrom, Safe;
    var c := Setup(1, false);
    var e1 := [AOpens(Sent), Commits(OpenTx), AWaits(false), APolls(false)];
    var e2 := [AReads(false), AAborts(Sent), Commits(AbortTx(0)), AWaits(false)];
    AbortsInTime(c, e1, e2);
    RunInParts(c, Start(), e1, e2);
    RaceIsSafe(c, e1 + e2);
    assert AbortTx(0) in Run(c, e1 + e2).committed;
  }

  lemma {:induction false} AbortsInTime(c: Setup, e1: seq<Event>, e2: seq<Event>)
    requires c == Setup(1, false)
    requires e1 == [AOpens(Sent), Commits(OpenTx), AWaits(false), APolls(false)]
    requires e2 == [AReads(false), AAborts(Sent), Commits(AbortTx(0)), AWaits(false)]
    ensures RunFrom(c, RunFrom(c, Start(), e1), e2)
         == World(Gone, Returned(true, false), Waiting, 2, {}, {OpenTx, AbortTx(0)})
  {
    hide RunFrom, NextB, NextLedger;
    Unfold4(c, Start(), e1);
    Opens(c);
    var w := World(Live(0, false), AfterPoll(c, 0), Waiting, 1, {}, {OpenTx});
    w := w.(a := Aborting(TimedOut));
    Unfold4(c, w, e2);
    AbortsLive(c, w);
  }

  lemma {:induction false} Opens(c: Setup)
    ensures Next(c, Next(c, Next(c, Start(), AOpens(Sent)), Commits(OpenTx)), AWaits(false))
         == World(Live(0, c.initiallyFunded), AfterPoll(c, 0), Waiting, 1, {}, {OpenTx})
  {
    assert Next(c, Start(), AOpens(Sent)) == World(Unopened, Opening, Waiting, 0, {OpenTx}, {});
    assert Next(c, World(Unopened, Opening, Waiting, 0, {OpenTx}, {}), Commits(OpenTx))
        == World(Live(0, c.initiallyFunded), Opening, Waiting, 1, {}, {OpenTx});
  }

  lemma {:induction false} AbortsLive(c: Setup, w: World)
    requires w.a == Aborting(TimedOut) && w.chain.Live? && !w.chain.funded && w.pool == {}
    ensures Next(c, Next(c, Next(c, Next(c, w, AReads(false)), AAborts(Sent)), Commits(AbortTx(w.chain.id))),
                 AWaits(false))
         == World(Gone, Returned(true, false), w.b, w.nextId + 1, {}, w.committed + {AbortTx(w.chain.id)})
  {
    var id := w.chain.id;
    assert Next(c, Next(c, w, AReads(false)), AAborts(Sent)) == w.(a := AbortSent(TimedOut, id), pool := {AbortTx(id)});
    assert Next(c, w.(a := AbortSent(TimedOut, id), pool := {AbortTx(id)}), Commits(AbortTx(id)))
        == World(Gone, AbortSent(TimedOut, id), w.b, w.nextId + 1, {}, w.committed + {AbortTx(id)});
  }

  lemma {:induction false} FundsLive(c: Setup, w: World)
    requires w.b == Funding && w.chain.Live? && !w.chain.funded && w.pool == {}
    ensures Next(c, Next(c, Next(c, Next(c, w, BReads(false)), BFunds(Sent)), BWaits(true)),
                 Commits(FundTx(w.chain.id)))
         == World(Live(w.nextId, true), w.a, Finished(false), w.nextId + 1, {}, w.committed + {FundTx(w.chain.id)})
  {
    var id := w.chain.id;
    assert Next(c, Next(c, w, BReads(false)), BFunds(Sent)) == w.(b := FundSent(id), pool := {FundTx(id)});
    assert Next(c, w.(b := FundSent(id), pool := {FundTx(id)}), BWaits(true))
        == w.(b := Finished(false), pool := {FundTx(id)});
  }

  lemma {:induction false} Unfold4(c: Setup, w: World, e: seq<Event>)
    requires |e| == 4
    ensures RunFrom(c, w, e[..3]) == Next(c, Next(c, Next(c, w, e[0]), e[1]), e[2])
    ensures RunFrom(c, w, e) == Next(c, RunFrom(c, w, e[..3]), e[3])
  {
    hide Next;
    assert e[..3][..2] == e[..2] && e[..2][..1] == e[..1] && e[..1][..0] == [];
    assert RunFrom(c, w, e[..1]) == Next(c, w, e[0]);
    assert RunFrom(c, w, e[..2]) == Next(c, Next(c, w, e[0]), e[1]);
    assert RunFrom(c, w, e[..3]) == Next(c, RunFrom(c, w, e[..2]), e[2]);
  }

  lemma {:induction false} RunInParts(c: Setup, w: World, first: seq<Event>, more: seq<Event>)
    ensures RunFrom(c, w, first + more) == RunFrom(c, RunFrom(c, w, first), more)
    decreases |more|
  {
    hide Next;
    if more == [] {
      assert first + more == first;
    } else {
      var m := |more| - 1;
      assert (first + more)[..|first + more| - 1] == first + more[..m];
      RunInParts(c, w, first, more[..m]);
    }
  }

  /** Nothing undoes B's success. */
  lemma {:induction false} FundedStaysFunded(c: Setup, events: seq<Event>, n: nat)
    requires n <= |events| && Run(c, events[..n]).b == Finished(true)
    ensures var w := Run(c, events); w.b == Finished(true) && !Aborted(w) && WasFunded(c, w)
  {
    RaceIsSafe(c, events);
    if n < |events| {
      var m := |events| - 1;
      assert events[..m][..n] == events[..n];
      FundedStaysFunded(c, events[..m], n);
    } else {
      assert events[..n] == events;
    }
  }

  /** What the ledger makes of each transaction: opening makes the channel cell, aborting spends it, funding marks it;
      either of these needs the very cell it was built for, still unfunded. Disputes move a funded cell on, and a close
      spends it. */
  lemma {:induction false} LedgerMeans(c: Setup, w: World, tx: Tx)
    ensures var v := Next(c, w, Commits(tx));
            if tx in w.pool && w.chain == (if tx.OpenTx? then Unopened else Live(tx.id, false))
            then && tx in v.committed && tx !in v.pool && v.a == w.a && v.b == w.b
                 && v.chain == if tx.AbortTx? then Gone else Live(w.nextId, tx.FundTx? || c.initiallyFunded)
            else v == w
    ensures w.chain.Live? && w.chain.funded ==>
              && Next(c, w, DisputeAccepted).chain == Live(w.nextId, true) && Next(c, w, CloseAccepted).chain == Gone
    ensures !(w.chain.Live? && w.chain.funded) ==>
              Next(c, w, DisputeAccepted) == w && Next(c, w, CloseAccepted) == w
  {}

  // ---------- the integrity check ----------

  /** B has gone on with the channel it found, or has succeeded. */
  predicate GoesOn(b: PartyB) {
    b == Funding || b.FundRead? || b.FundSent? || b == Finished(true)
  }

  ghost predicate BCommitted(w: World) {
    GoesOn(w.b) || exists id :: FundTx(id) in w.pool + w.committed
  }

  /** B waited, found a live channel at step k, and it passed the check. */
  predicate Checked(c: Setup, events: seq<Event>, k: nat) {
    k < |events| && events[k] == BPolls(false, true)
    && Run(c, events[..k]).b == Waiting && Run(c, events[..k]).chain.Live?
  }

  /** Over every run, B goes on with a channel, succeeds or sends its funds only after one it found has passed the
      integrity check. */
  lemma {:induction false} OnlyCheckedIsFunded(c: Setup, events: seq<Event>)
    ensures BCommitted(Run(c, events)) ==> exists k: nat :: Checked(c, events, k)
  {
    if events != [] {
      var m := |events| - 1;
      OnlyCheckedIsFunded(c, events[..m]);
      CommitsByCheck(c, Run(c, events[..m]), events[m]);
      if BCommitted(Run(c, events[..m])) {
        var k: nat :| Checked(c, events[..m], k);
        assert events[..m][..k] == events[..k];
        assert Checked(c, events, k);
      } else if BCommitted(Run(c, events)) {
        assert Checked(c, events, m);
      }
    }
  }

  lemma {:induction false} CommitsByCheck(c: Setup, w: World, e: Event)
    ensures BCommitted(Next(c, w, e)) ==>
              BCommitted(w) || (e == BPolls(false, true) && w.b == Waiting && w.chain.Live?)
  {
    var v := Next(c, w, e);
    if !GoesOn(v.b) && BCommitted(v) {
      var id :| FundTx(id) in v.pool + v.committed;
      assert FundTx(id) in w.pool + w.committed || w.b == FundRead(id);
    }
  }

  /** A waiting B decides by the first live channel it finds: it fails if the check does, succeeds if the channel is
      funded already, and funds it otherwise. */
  lemma {:induction false} FirstFindDecides(c: Setup, w: World, integrity: bool)
    requires w.b == Waiting && w.chain.Live?
    ensures Next(c, w, BPolls(false, integrity)) ==
            w.(b := if !integrity then Finished(false) else if w.chain.funded then Finished(true) else Funding)
  {}

  /** Cancelling makes a waiting B fail, and a polling A abort. */
  lemma {:induction false} CancelEnds(c: Setup, w: World)
    ensures w.b == Waiting ==> Next(c, w, BCancels) == w.(b := Finished(false))
    ensures w.a.Polling? ==> Next(c, w, ACancels) == w.(a := Aborting(Cancelled))
  {}

  /** After a failed check B never sends anything, however the run goes on. */
  lemma {:induction false} UncheckedIsNeverFunded(c: Setup, events: seq<Event>, more: seq<Event>)
    requires Run(c, events).b == Waiting && Run(c, events).chain.Live?
    ensures var w := Run(c, events + [BPolls(false, false)] + more);
            w.b == Finished(false) && forall id :: FundTx(id) !in w.pool + w.committed
    decreases |more|
  {
    var all := events + [BPolls(false, false)] + more;
    if more == [] {
      RaceIsSafe(c, events);
      assert all[..|all| - 1] == events && all[|all| - 1] == BPolls(false, false);
    } else {
      var m := |more| - 1;
      UncheckedIsNeverFunded(c, events, more[..m]);
      assert all[..|all| - 1] == events + [BPolls(false, false)] + more[..m] && all[|all| - 1] == more[m];
      CommitsByCheck(c, Run(c, all[..|all| - 1]), more[m]);
    }
  }

  // ---------- success ----------

  /** A that polls a live, funded channel returns success at once. */
  lemma {:induction false} SeeingFundedIsSuccess(c: Setup, w: World)
    requires w.a.Polling? && w.chain.Live? && w.chain.funded
    ensures Next(c, w, APolls(false)) == w.(a := Returned(true, true))
  {}

  /** And the protocol can succeed for both: A opens, B finds and funds the channel, and A sees it funded. */
  lemma {:induction false} BothSucceed(c: Setup)
    requires c.maxIterations > 0 && !c.initiallyFunded
    ensures exists events ::
              var w := Run(c, events);
              && w.a == Returned(true, true) && w.b == Finished(true) && w.chain.Live? && w.chain.funded
              && FundedByB(w) && !Aborted(w)
  {
    hide Next, RunFrom, Safe;
    var e1 := [AOpens(Sent), Commits(OpenTx), AWaits(false), BPolls(false, true)];
    var e2 := [BReads(false), BFunds(Sent), Commits(FundTx(0)), BWaits(false)];
    var e3 := [APolls(false)];
    Succeeds(c, e1, e2, e3);
    RunInParts(c, Start(), e1, e2);
    RunInParts(c, Start(), e1 + e2, e3);
    RaceIsSafe(c, e1 + e2 + e3);
    assert FundTx(0) in Run(c, e1 + e2 + e3).committed;
  }

  lemma {:induction false} Succeeds(c: Setup, e1: seq<Event>, e2: seq<Event>, e3: seq<Event>)
    requires c.maxIterations > 0 && !c.initiallyFunded && e3 == [APolls(false)]
    requires e1 == [AOpens(Sent), Commits(OpenTx), AWaits(false), BPolls(false, true)]
    requires e2 == [BReads(false), BFunds(Sent), Commits(FundTx(0)), BWaits(false)]
    ensures RunFrom(c, RunFrom(c, RunFrom(c, Start(), e1), e2), e3)
         == World(Live(1, true), Returned(true, true), Finished(true), 2, {}, {OpenTx, FundTx(0)})
  {
    hide RunFrom, NextA, NextLedger;
    Unfold4(c, Start(), e1);
    Opens(c);
    var w := World(Live(0, false), AfterPoll(c, 0), Funding, 1, {}, {OpenTx});
    Unfold4(c, w, e2);
    FundsInTime(c, w);
    assert {OpenTx} + {FundTx(0)} == {OpenTx, FundTx(0)};
    var v := World(Live(1, true), AfterPoll(c, 0), Finished(true), 2, {}, {OpenTx, FundTx(0)});
    OneStep(c, v, e3);
    SeeingFundedIsSuccess(c, v);
    assert RunFrom(c, Start(), e1) == w;
    assert RunFrom(c, w, e2) == v;
  }

  lemma {:induction false} OneStep(c: Setup, w: World, e: seq<Event>)
    requires |e| == 1
    ensures RunFrom(c, w, e) == Next(c, w, e[0])
  {
    assert e[..0] == [];
  }

  lemma {:induction false} FundsInTime(c: Setup, w: World)
    requires w.b == Funding && w.chain.Live? && !w.chain.funded && w.pool == {}
    ensures Next(c, Next(c, Next(c, Next(c, w, BReads(false)), BFunds(Sent)), Commits(FundTx(w.chain.id))),
                 BWaits(false))
         == World(Live(w.nextId, true), w.a, Finished(true), w.nextId + 1, {}, w.committed + {FundTx(w.chain.id)})
  {
    var id := w.chain.id;
    assert Next(c, Next(c, w, BReads(false)), BFunds(Sent)) == w.(b := FundSent(id), pool := {FundTx(id)});
    assert Next(c, w.(b := FundSent(id), pool := {FundTx(id)}), Commits(FundTx(id)))
        == World(Live(w.nextId, true), w.a, FundSent(id), w.nextId + 1, {}, w.committed + {FundTx(id)});
  }

  predicate Unsuccessful(a: PartyA) {
    || (a.Aborting? && a.why == Cancelled)
    || ((a.AbortRead? || a.AbortSent?) && a.why == Cancelled)
    || (a.Returned? && !a.ok)
  }

  /** A cancelled A never reports success, whether or not its abort goes through. */
  lemma {:induction false} CancelledNeverSucceeds(c: Setup, events: seq<Event>, n: nat)
    requires n <= |events| && Unsuccessful(Run(c, events[..n]).a)
    ensures Unsuccessful(Run(c, events).a)
  {
    if n < |events| {
      var m := |events| - 1;
      assert events[..m][..n] == events[..n];
      CancelledNeverSucceeds(c, events[..m], n);
    } else {
      assert events[..n] == events;
    }
  }

  // ---------- errors that are none ----------

  ghost predicate FundsPending(w: World) {
    w.chain.Live? && !w.chain.funded && FundTx(w.chain.id) in w.pool
  }

  /** With B done, no step makes its transaction committable again. */
  lemma {:induction false} PendingIsOld(c: Setup, w: World, more: seq<Event>)
    requires OnlyOwn(w) && w.b.Finished? && !FundedByB(w) && !FundsPending(w)
    ensures var v := RunFrom(c, w, more);
            OnlyOwn(v) && v.b.Finished? && !FundedByB(v) && !FundsPending(v)
    decreases |more|
  {
    if more != [] {
      var m := |more| - 1;
      PendingIsOld(c, w, more[..m]);
      var v := RunFrom(c, w, more[..m]);
      StaysOwn(c, v, more[m]);
      NotRevived(c, v, more[m]);
    }
  }

  lemma {:induction false} NotRevived(c: Setup, w: World, e: Event)
    requires OnlyOwn(w) && w.b.Finished?
    ensures var v := Next(c, w, e);
            && v.b.Finished?
            && (FundedByB(v) || FundsPending(v) ==> FundedByB(w) || FundsPending(w))
  {
    var v := Next(c, w, e);
    if FundedByB(v) && !FundedByB(w) {
      var id :| FundTx(id) in v.committed;
      assert v.committed == w.committed + {FundTx(id)};
    }
  }

  /** An error of B says little about its funds: they are, or may still become, locked in the channel if and only if its
      transaction has been committed, or waits in the pool for a cell that is still live and unfunded. */
  lemma {:induction false} FundingAfterAnError(c: Setup, events: seq<Event>)
    requires Run(c, events).b == Finished(false)
    ensures var w := Run(c, events);
            (exists more :: FundedByB(Run(c, events + more))) <==> FundedByB(w) || FundsPending(w)
  {
    var w := Run(c, events);
    RaceIsSafe(c, events);
    if FundedByB(w) {
      assert events + [] == events;
      assert FundedByB(Run(c, events + []));
    } else if FundsPending(w) {
      var more := [Commits(FundTx(w.chain.id))];
      RunInParts(c, Start(), events, more);
      assert more[..0] == [];
      var v := Run(c, events + more);
      assert FundTx(w.chain.id) in v.committed;
    } else {
      forall more ensures !FundedByB(Run(c, events + more)) {
        RunInParts(c, Start(), events, more);
        PendingIsOld(c, w, more);
      }
    }
  }

  /** That case is real: B gives up waiting, its transaction is committed, and the channel is funded by a B that has
      returned an error. */
  lemma {:induction false} FundedInSpiteOfError()
    ensures exists events ::
              var w := Run(Setup(2, false), events);
              w.b == Finished(false) && FundedByB(w) && w.chain.Live? && w.chain.funded
  {
    hide Next, RunFrom, Safe;
    var c := Setup(2, false);
    var e1 := [AOpens(Sent), Commits(OpenTx), AWaits(false), BPolls(false, true)];
    var e2 := [BReads(false), BFunds(Sent), BWaits(true), Commits(FundTx(0))];
    FundsTooLate(c, e1, e2);
    RunInParts(c, Start(), e1, e2);
    assert FundTx(0) in Run(c, e1 + e2).committed;
  }

  lemma {:induction false} FundsTooLate(c: Setup, e1: seq<Event>, e2: seq<Event>)
    requires c == Setup(2, false)
    requires e1 == [AOpens(Sent), Commits(OpenTx), AWaits(false), BPolls(false, true)]
    requires e2 == [BReads(false), BFunds(Sent), BWaits(true), Commits(FundTx(0))]
    ensures RunFrom(c, RunFrom(c, Start(), e1), e2)
         == World(Live(1, true), Polling(0), Finished(false), 2, {}, {OpenTx, FundTx(0)})
  {
    hide RunFrom, NextA, NextLedger;
    Unfold4(c, Start(), e1);
    Opens(c);
    var w := World(Live(0, false), AfterPoll(c, 0), Waiting, 1, {}, {OpenTx});
    Unfold4(c, w.(b := Funding), e2);
    FundsLive(c, w.(b := Funding));
  }

  ghost predicate AbortPending(w: World) {
    w.chain.Live? && !w.chain.funded && AbortTx(w.chain.id) in w.pool
  }

  /** Once A has returned, for success or failure, its channel is or may still be aborted if and only if its abort has
      been committed, or waits in the pool for a cell that is still live and unfunded. */
  lemma {:induction false} AbortAfterReturn(c: Setup, events: seq<Event>)
    requires Run(c, events).a.Returned?
    ensures var w := Run(c, events);
            (exists more :: Aborted(Run(c, events + more))) <==> Aborted(w) || AbortPending(w)
  {
    var w := Run(c, events);
    RaceIsSafe(c, events);
    if Aborted(w) {
      assert events + [] == events;
      assert Aborted(Run(c, events + []));
    } else if AbortPending(w) {
      var more := [Commits(AbortTx(w.chain.id))];
      RunInParts(c, Start(), events, more);
      assert more[..0] == [];
      assert AbortTx(w.chain.id) in Run(c, events + more).committed;
    } else {
      forall more ensures !Aborted(Run(c, events + more)) {
        RunInParts(c, Start(), events, more);
        NeverAborted(c, w, more);
      }
    }
  }

  /** That case is real: A is cancelled, gives up waiting for its abort and returns an error, while the channel is live;
      then the abort is committed. */
  lemma {:induction false} AbortedInSpiteOfError()
    ensures exists events ::
              && events != []
              && Run(Setup(1, false), events[..|events| - 1]).a == Returned(false, false)
              && Run(Setup(1, false), events[..|events| - 1]).chain == Live(0, false)
              && Run(Setup(1, false), events).chain == Gone && Aborted(Run(Setup(1, false), events))
  {
    hide Next, RunFrom, Safe;
    var c := Setup(1, false);
    var e1 := [AOpens(Sent), Commits(OpenTx), AWaits(false), ACancels];
    var e2 := [AReads(false), AAborts(Sent), AWaits(true), Commits(AbortTx(0))];
    AbortsTooLate(c, e1, e2);
    RunInParts(c, Start(), e1, e2);
    RunInParts(c, Start(), e1, e2[..3]);
    assert (e1 + e2)[..|e1 + e2| - 1] == e1 + e2[..3];
    assert AbortTx(0) in Run(c, e1 + e2).committed;
  }

  lemma {:induction false} AbortsTooLate(c: Setup, e1: seq<Event>, e2: seq<Event>)
    requires c == Setup(1, false)
    requires e1 == [AOpens(Sent), Commits(OpenTx), AWaits(false), ACancels]
    requires e2 == [AReads(false), AAborts(Sent), AWaits(true), Commits(AbortTx(0))]
    ensures RunFrom(c, RunFrom(c, Start(), e1), e2[..3])
         == World(Live(0, false), Returned(false, false), Waiting, 1, {AbortTx(0)}, {OpenTx})
    ensures RunFrom(c, RunFrom(c, Start(), e1), e2)
         == World(Gone, Returned(false, false), Waiting, 2, {}, {OpenTx, AbortTx(0)})
  {
    hide RunFrom, NextB, NextLedger;
    Unfold4(c, Start(), e1);
    Opens(c);
    var w := World(Live(0, false), AfterPoll(c, 0), Waiting, 1, {}, {OpenTx});
    Unfold4(c, w.(a := Aborting(Cancelled)), e2);
    GivesUpAborting(c, w.(a := Aborting(Cancelled)));
  }

  lemma {:induction false} GivesUpAborting(c: Setup, w: World)
    requires w.a == Aborting(Cancelled) && w.chain.Live? && !w.chain.funded && w.pool == {}
    ensures Next(c, Next(c, Next(c, w, AReads(false)), AAborts(Sent)), AWaits(true))
         == w.(a := Returned(false, false), pool := {AbortTx(w.chain.id)})
    ensures Next(c, w.(a := Returned(false, false), pool := {AbortTx(w.chain.id)}), Commits(AbortTx(w.chain.id)))
         == World(Gone, Returned(false, false), w.b, w.nextId + 1, {}, w.committed + {AbortTx(w.chain.id)})
  {
    var id := w.chain.id;
    assert Next(c, Next(c, w, AReads(false)), AAborts(Sent))
        == w.(a := AbortSent(Cancelled, id), pool := {AbortTx(id)});
  }

  ghost predicate AbortIsDead(w: World) {
    w.a.Returned? && !Aborted(w) && !AbortPending(w)
  }

  lemma {:induction false} NeverAborted(c: Setup, w: World, more: seq<Event>)
    requires OnlyOwn(w) && AbortIsDead(w)
    ensures OnlyOwn(RunFrom(c, w, more)) && AbortIsDead(RunFrom(c, w, more))
    decreases |more|
  {
    if more != [] {
      var m := |more| - 1;
      NeverAborted(c, w, more[..m]);
      var v := RunFrom(c, w, more[..m]);
      StaysOwn(c, v, more[m]);
      AbortStaysDead(c, v, more[m]);
    }
  }

  lemma {:induction false} AbortStaysDead(c: Setup, w: World, e: Event)
    requires OnlyOwn(w) && w.a.Returned?
    ensures AbortIsDead(w) ==> AbortIsDead(Next(c, w, e))
  {
    var v := Next(c, w, e);
    if Aborted(v) && !Aborted(w) {
      var id :| AbortTx(id) in v.committed;
      assert v.committed == w.committed + {AbortTx(id)};
    }
  }

  // ---------- polls ----------

  function Polls(c: Setup, events: seq<Event>): nat {
    if events == [] then 0
    else
      var m := |events| - 1;
      Polls(c, events[..m]) + if events[m].APolls? && Run(c, events[..m]).a.Polling? then 1 else 0
  }

  predicate PollsSoFar(c: Setup, a: PartyA, polls: nat) {
    match a
    case Starting => polls == 0
    case Opening => polls == 0
    case Polling(i) => polls == i < c.maxIterations
    case Aborting(why) => if why == TimedOut then polls == c.maxIterations else polls < c.maxIterations
    case AbortRead(why, _) => if why == TimedOut then polls == c.maxIterations else polls < c.maxIterations
    case AbortSent(why, _) => if why == TimedOut then polls == c.maxIterations else polls < c.maxIterations
    case Returned(ok, sawFunded) =>
      polls <= c.maxIterations && (ok && !sawFunded ==> polls == c.maxIterations) && (sawFunded ==> polls > 0)
  }

  /** A polls at most maxIterations times. It gives up for want of a partner, and returns success without a funded
      channel, exactly after that many; a cancelled one has polled less often. */
  lemma {:induction false} PollsAreBounded(c: Setup, events: seq<Event>)
    ensures Polls(c, events) <= c.maxIterations && PollsSoFar(c, Run(c, events).a, Polls(c, events))
  {
    if events != [] {
      PollsAreBounded(c, events[..|events| - 1]);
    }
  }
}

/** channel/adjudicator/adjudicator_sub.go: a subscription polls the channel cell and turns what it sees into events. */
module Subscription {
  import opened Words
  import opened Wrappers
  import opened Statuses
  import Disputes

  datatype SubError = NilStatus | NotDisputed | NoDeadline

  /** One poll: the status found (nil if it cannot be) with the challenge deadline that can be worked out for it,
      ErrNoChannelLiveCell, or any other error. */
  datatype Poll = Hit(status: Option<ChannelStatus>, deadline: Option<nat>) | NoLiveCell | RpcError

  datatype AdjudicatorEvent = Registered(version: uint64, deadline: nat) | Concluded

  datatype Outcome = Running | Failed(error: SubError) | Finished

  const CONCLUDE_MISS_THRESHOLD := 3

  // ---------- the specification ----------

  /** What the subscription knows between two polls. */
  datatype View = View(found: bool, misses: nat, last: Option<ChannelStatus>, events: seq<AdjudicatorEvent>,
                       outcome: Outcome)

  const START := View(false, 0, None, [], Running)

  function SeeStatus(v: View, status: ChannelStatus, deadline: Option<nat>): View {
    var w := v.(found := true, misses := 0);
    if v.last.None? then w.(last := Some(status))
    else if v.last.value == status then w
    else if !v.last.value.funded then w.(last := Some(status))
    else if !status.disputed then w.(outcome := Failed(NotDisputed))
    else if deadline.None? then w.(outcome := Failed(NoDeadline))
    else w.(last := Some(status), events := v.events + [Registered(status.state.version, deadline.value)])
  }

  function Step(v: View, p: Poll): View {
    if v.outcome != Running then v
    else match p
      case RpcError => v
      case NoLiveCell =>
        if !v.found then v
        else if v.misses + 1 < CONCLUDE_MISS_THRESHOLD then v.(misses := v.misses + 1)
        else v.(misses := v.misses + 1, last := None, events := v.events + [Concluded], outcome := Finished)
      case Hit(None, _) => v.(found := true, misses := 0, outcome := Failed(NilStatus))
      case Hit(Some(status), deadline) => SeeStatus(v, status, deadline)
  }

  function After(polls: seq<Poll>): View {
    if polls == [] then START else Step(After(polls[..|polls| - 1]), polls[|polls| - 1])
  }

  // ---------- the subscription ----------

  class PollingSubscription {
    var events: seq<AdjudicatorEvent>
    var closed: nat
    var err: Option<SubError>
    var foundLiveCellOnce: bool
    var consecutiveMisses: nat
    var concluded: bool
    var fatalErrors: Option<SubError>

    constructor ()
      ensures events == [] && closed == 0 && err == None && !foundLiveCellOnce && consecutiveMisses == 0
      ensures !concluded && fatalErrors == None
    {
      events, closed, err, foundLiveCellOnce, consecutiveMisses := [], 0, None, false, 0;
      concluded, fatalErrors := false, None;
    }

    function ViewWith(last: Option<ChannelStatus>): View
      reads this
    {
      View(foundLiveCellOnce, consecutiveMisses, last, events,
           if fatalErrors.Some? then Failed(fatalErrors.value) else if concluded then Finished else Running)
    }

    method EmitEventIfNecessary(oldStatus: Option<ChannelStatus>, newStatus: Option<ChannelStatus>,
                                deadline: Option<nat>, foundLiveCell: bool)
      returns (changed: bool)
      requires fatalErrors == None && !concluded
      requires !foundLiveCell ==> newStatus == None
      modifies this`events, this`foundLiveCellOnce, this`consecutiveMisses, this`concluded, this`fatalErrors
      ensures ViewWith(if changed then newStatus else oldStatus) ==
              Step(old(ViewWith(oldStatus)), if foundLiveCell then Hit(newStatus, deadline) else NoLiveCell)
    {
      foundLiveCellOnce := foundLiveCellOnce || foundLiveCell;
      if !foundLiveCellOnce {
        return false;
      }
      if !foundLiveCell {
        consecutiveMisses := consecutiveMisses + 1;
        if consecutiveMisses < CONCLUDE_MISS_THRESHOLD {
          return false;
        }
        events := events + [Concluded];
        concluded := true;
        return true;
      }
      consecutiveMisses := 0;
      if newStatus == None {
        fatalErrors := Some(NilStatus);
        return false;
      }
      if oldStatus == None {
        return true;
      }
      if oldStatus == newStatus {
        return false;
      }
      if !oldStatus.value.funded {
        return true;
      }
      if !newStatus.value.disputed {
        fatalErrors := Some(NotDisputed);
        return false;
      }
      if deadline == None {
        fatalErrors := Some(NoDeadline);
        return false;
      }
      events := events + [Registered(newStatus.value.state.version, deadline.value)];
      changed := true;
    }

    method Finish(error: Option<SubError>)
      modifies this`err, this`closed
      ensures err == error && closed == old(closed) + 1
    {
      err := error;
      closed := closed + 1;
    }

    /** The polling loop. The context is cancelled when the polls run out; if the subscription is over by then as well,
        cancelledFirst says which of the two the select statement notices. */
    method Run(polls: seq<Poll>, cancelledFirst: bool)
      requires events == [] && closed == 0 && err == None && !foundLiveCellOnce && consecutiveMisses == 0
      requires !concluded && fatalErrors == None
      modifies this
      ensures closed == 1 && events == After(polls).events
      ensures After(polls).outcome.Failed? ==> err == Some(After(polls).outcome.error) || err == None
      ensures !After(polls).outcome.Failed? ==> err == None
    {
      var oldStatus: Option<ChannelStatus> := None;
      var i := 0;
      while true
        invariant i <= |polls| && closed == 0
        invariant ViewWith(oldStatus) == After(polls[..i])
        decreases |polls| - i
      {
        if i == |polls| && cancelledFirst {
          assert polls[..i] == polls;
          Finish(None);
          return;
        }
        if fatalErrors.Some? {
          Over(polls, i);
          Finish(fatalErrors);
          return;
        }
        if concluded {
          Over(polls, i);
          Finish(None);
          return;
        }
        if i == |polls| {
          assert polls[..i] == polls;
          Finish(None);
          return;
        }
        NextView(polls, i);
        var poll := polls[i];
        i := i + 1;
        if poll.RpcError? {
          continue;
        }
        var newStatus := if poll.Hit? then poll.status else None;
        var deadline := if poll.Hit? then poll.deadline else None;
        assert poll == if poll.Hit? then Hit(newStatus, deadline) else NoLiveCell;
        var changed := EmitEventIfNecessary(oldStatus, newStatus, deadline, poll.Hit?);
        if changed {
          oldStatus := newStatus;
        }
      }
    }
  }

  lemma {:induction false} NextView(polls: seq<Poll>, i: nat)
    requires i < |polls|
    ensures After(polls[..i + 1]) == Step(After(polls[..i]), polls[i])
  {
    assert polls[..i + 1][..i] == polls[..i];
  }

  /** Once it is over, nothing changes any more. */
  lemma {:induction false} Over(polls: seq<Poll>, n: nat)
    requires n <= |polls| && After(polls[..n]).outcome != Running
    ensures After(polls) == After(polls[..n])
    decreases |polls| - n
  {
    if n == |polls| {
      assert polls[..n] == polls;
    } else {
      assert polls[..n + 1][..n] == polls[..n];
      Over(polls, n + 1);
    }
  }

  // ---------- what it reports ----------

  predicate AllRegistered(events: seq<AdjudicatorEvent>) {
    forall e :: e in events ==> e.Registered?
  }

  /** Registered*, and one Concluded at the end if and only if the subscription finished by itself. */
  lemma {:induction false} TraceShape(polls: seq<Poll>)
    ensures var v := After(polls);
            if v.outcome == Finished then
              v.events != [] && v.events[|v.events| - 1] == Concluded && AllRegistered(v.events[..|v.events| - 1])
            else AllRegistered(v.events)
  {
    if polls != [] {
      TraceShape(polls[..|polls| - 1]);
      var v := After(polls[..|polls| - 1]);
      assert (v.events + [Concluded])[..|v.events|] == v.events;
    }
  }

  /** The polls that count: RPC errors neither count as a miss nor end a row of misses. */
  function Counted(polls: seq<Poll>): seq<Poll> {
    if polls == [] then []
    else
      var p := polls[|polls| - 1];
      Counted(polls[..|polls| - 1]) + if p.RpcError? then [] else [p]
  }

  function TrailingMisses(counted: seq<Poll>): nat {
    if counted == [] || counted[|counted| - 1] != NoLiveCell then 0 else TrailingMisses(counted[..|counted| - 1]) + 1
  }

  predicate AnyHit(counted: seq<Poll>) {
    exists p :: p in counted && p.Hit?
  }

  lemma {:induction false} CountedNext(counted: seq<Poll>, p: Poll)
    ensures TrailingMisses(counted + [p]) == if p == NoLiveCell then TrailingMisses(counted) + 1 else 0
    ensures AnyHit(counted + [p]) <==> AnyHit(counted) || p.Hit?
  {
    assert (counted + [p])[..|counted|] == counted;
    assert p in counted + [p];
    forall q | q in counted ensures q in counted + [p] {}
  }

  lemma {:induction false} MissesAreCounted(polls: seq<Poll>)
    ensures var v, c := After(polls), Counted(polls);
            v.outcome == Running ==>
              && v.found == AnyHit(c)
              && (v.found ==> v.misses == TrailingMisses(c) < 3)
  {
    if polls != [] {
      var before, p := polls[..|polls| - 1], polls[|polls| - 1];
      MissesAreCounted(before);
      hide AnyHit, TrailingMisses, Step;
      CountedNext(Counted(before), p);
      assert p.RpcError? ==> Counted(polls) == Counted(before);
      if After(polls).outcome == Running {
        MissesAfter(After(before), p);
      }
    } else {
      NoHits();
    }
  }

  lemma {:induction false} NoHits()
    ensures !AnyHit([])
  {}

  lemma {:induction false} MissesAfter(v: View, p: Poll)
    requires Step(v, p).outcome == Running
    ensures v.outcome == Running && Step(v, p).found == (v.found || p.Hit?)
    ensures Step(v, p).misses == if p.Hit? then 0 else if p.RpcError? || !v.found then v.misses else v.misses + 1
    ensures p == NoLiveCell && v.found ==> v.misses + 1 < CONCLUDE_MISS_THRESHOLD
  {}

  /** Concluded is reported exactly when, after some hit, the third miss in a row arrives. */
  lemma {:induction false} ConcludedAfterThreeMisses(polls: seq<Poll>, p: Poll)
    requires After(polls).outcome == Running
    ensures After(polls + [p]).outcome == Finished <==>
            p == NoLiveCell && AnyHit(Counted(polls)) && TrailingMisses(Counted(polls)) + 1 == 3
  {
    assert (polls + [p])[..|polls|] == polls;
    MissesAreCounted(polls);
  }

  /** The statuses found, each with its deadline. */
  function HitsOf(polls: seq<Poll>): seq<Poll> {
    if polls == [] then []
    else
      var p := polls[|polls| - 1];
      HitsOf(polls[..|polls| - 1]) + if p.Hit? && p.status.Some? then [p] else []
  }

  predicate Found(hits: seq<Poll>) {
    forall p :: p in hits ==> p.Hit? && p.status.Some?
  }

  /** One event for each change from one hit to the next of a channel that was funded. */
  function Changes(hits: seq<Poll>): seq<AdjudicatorEvent>
    requires Found(hits)
  {
    if |hits| < 2 then []
    else
      var before, a, b := hits[..|hits| - 1], hits[|hits| - 2], hits[|hits| - 1];
      Changes(before) + if a.status.value.funded && a.status != b.status && b.deadline.Some?
                        then [Registered(b.status.value.state.version, b.deadline.value)] else []
  }

  function LastHit(hits: seq<Poll>): Option<ChannelStatus>
    requires Found(hits)
  {
    if hits == [] then None else hits[|hits| - 1].status
  }

  lemma {:induction false} HitsAreFound(polls: seq<Poll>)
    ensures Found(HitsOf(polls))
  {
    if polls != [] {
      HitsAreFound(polls[..|polls| - 1]);
    }
  }

  lemma {:induction false} NextHit(hits: seq<Poll>, p: Poll)
    requires Found(hits) && p.Hit? && p.status.Some?
    ensures Found(hits + [p]) && LastHit(hits + [p]) == p.status
    ensures Changes(hits + [p]) ==
            Changes(hits) + if LastHit(hits).Some? && LastHit(hits).value.funded && LastHit(hits) != p.status
              && p.deadline.Some?
                            then [Registered(p.status.value.state.version, p.deadline.value)] else []
  {
    assert (hits + [p])[..|hits|] == hits;
  }

  /** What a running subscription has reported is every change it has seen of a funded channel, in order, with the
      version just found; the status it starts from is not reported, even if that is a disputed one. */
  lemma {:induction false} ReportsChanges(polls: seq<Poll>)
    ensures Found(HitsOf(polls))
    ensures var v := After(polls);
            v.outcome == Running ==> v.last == LastHit(HitsOf(polls)) && v.events == Changes(HitsOf(polls))
  {
    if polls != [] {
      var before, p := polls[..|polls| - 1], polls[|polls| - 1];
      ReportsChanges(before);
      hide Changes, LastHit, Found;
      if p.Hit? && p.status.Some? {
        NextHit(HitsOf(before), p);
      } else {
        assert HitsOf(polls) == HitsOf(before);
      }
    } else {
      assert Changes([]) == [] && LastHit([]) == None;
    }
  }

  /** Exactly when a running subscription fails, and with which error: on a nil status, on a change of a funded channel
      that is no dispute, and on a dispute without a deadline. */
  lemma {:induction false} FailsExactly(polls: seq<Poll>, p: Poll)
    requires After(polls).outcome == Running
    ensures Found(HitsOf(polls))
    ensures var w, last := After(polls + [p]), LastHit(HitsOf(polls));
            var changed := p.Hit? && p.status.Some? && last.Some? && last != p.status && last.value.funded;
            && (w.outcome == Failed(NilStatus) <==> p.Hit? && p.status == None)
            && (w.outcome == Failed(NotDisputed) <==> changed && !p.status.value.disputed)
            && (w.outcome == Failed(NoDeadline) <==> changed && p.status.value.disputed && p.deadline == None)
            && (w.outcome.Failed? ==> w.events == After(polls).events)
  {
    ReportsChanges(polls);
    assert (polls + [p])[..|polls|] == polls;
  }

  /** Nor is a change reported from an unfunded status. So a dispute goes unreported by the second poll exactly if the
      first one found it already, or found the channel unfunded, and it was funded and disputed in between. */
  lemma {:induction false} DisputeGoesUnreported(a: ChannelStatus, b: ChannelStatus, x: Option<nat>, y: Option<nat>)
    requires b.disputed && y.Some?
    ensures var v := After([Hit(Some(a), x), Hit(Some(b), y)]);
            v.outcome == Running && v.last == Some(b) && (v.events == [] <==> a == b || !a.funded)
  {
    var first, second := Hit(Some(a), x), Hit(Some(b), y);
    assert [first, second][..1] == [first] && [first][..0] == [];
    assert After([first]) == SeeStatus(START, a, x);
  }

  // ---------- against the ledger ----------

  /** Poll i looked at the ledger after times[i] of its events; later polls look later. A live cell may be missed. */
  ghost predicate Sampled(start: ChannelStatus, ledger: seq<Disputes.Event>, times: seq<nat>, polls: seq<Poll>) {
    && |times| == |polls|
    && (forall i, j :: 0 <= i < j < |times| ==> times[i] <= times[j])
    && forall i :: 0 <= i < |polls| ==>
       times[i] <= |ledger| && (polls[i].Hit? ==> Shows(Disputes.Run(start, ledger[..times[i]]), polls[i]))
  }

  predicate Shows(w: Disputes.World, p: Poll) {
    p.Hit? && w.channel.Some? && p.status == Some(w.channel.value.status)
  }

  predicate Ordered(hits: seq<Poll>)
    requires Found(hits)
  {
    forall i, j :: 0 <= i < j < |hits| ==> Disputes.Grows(hits[i].status.value, hits[j].status.value)
  }

  /** A hit follows, in the ledger's order, whatever was hit before it. */
  lemma {:induction false} HitFollows(start: ChannelStatus, ledger: seq<Disputes.Event>, times: seq<nat>,
                                      polls: seq<Poll>, k: nat, n: nat)
    requires Sampled(start, ledger, times, polls) && k < n < |polls| && polls[k].Hit? && polls[n].Hit?
    ensures polls[k].status.Some? && polls[n].status.Some?
            && Disputes.Grows(polls[k].status.value, polls[n].status.value)
  {
    hide Disputes.Grows, Disputes.Run, Disputes.Consistent;
    assert ledger[..times[n]][..times[k]] == ledger[..times[k]];
    Disputes.RunGrows(start, ledger[..times[n]], times[k]);
  }

  lemma {:induction false} HitsAreOrdered(start: ChannelStatus, ledger: seq<Disputes.Event>, times: seq<nat>,
                                          polls: seq<Poll>)
    requires Sampled(start, ledger, times, polls)
    ensures Found(HitsOf(polls)) && Ordered(HitsOf(polls))
    ensures forall p :: p in polls && p.Hit? ==> p.status.Some?
    ensures forall p :: p in HitsOf(polls) ==> p in polls
  {
    HitsAreFound(polls);
    if polls != [] {
      hide Disputes.Grows, Disputes.Run;
      var n := |polls| - 1;
      HitsAreOrdered(start, ledger, times[..n], polls[..n]);
      HitsAreFound(polls[..n]);
      assert polls == polls[..n] + [polls[n]];
      if polls[n].Hit? {
        var hits := HitsOf(polls[..n]);
        forall i | 0 <= i < |hits| ensures Disputes.Grows(hits[i].status.value, polls[n].status.value) {
          assert hits[i] in polls[..n];
          var k :| 0 <= k < n && polls[k] == hits[i];
          HitFollows(start, ledger, times, polls, k, n);
        }
      }
    }
  }

  predicate VersionsGrow(events: seq<AdjudicatorEvent>) {
    forall i, j :: 0 <= i < j < |events| && events[i].Registered? && events[j].Registered? ==>
      events[i].version <= events[j].version
  }

  lemma {:induction false} ChangesGrow(hits: seq<Poll>)
    requires Found(hits) && Ordered(hits)
    ensures VersionsGrow(Changes(hits))
    ensures forall e :: e in Changes(hits) ==>
            e.Registered? && hits != [] && e.version <= hits[|hits| - 1].status.value.state.version
  {
    if |hits| >= 2 {
      var n := |hits| - 1;
      ChangesGrow(hits[..n]);
      assert Disputes.Grows(hits[n - 1].status.value, hits[n].status.value);
      var before := Changes(hits[..n]);
      forall i | 0 <= i < |before|
        ensures before[i].Registered? && before[i].version <= hits[n].status.value.state.version {
        assert before[i] in before;
      }
    }
  }

  lemma {:induction false} SamplePrefix(start: ChannelStatus, ledger: seq<Disputes.Event>, times: seq<nat>,
                                        polls: seq<Poll>, n: nat)
    requires Sampled(start, ledger, times, polls) && n <= |polls|
    ensures Sampled(start, ledger, times[..n], polls[..n])
  {}

  /** A hit after ordered hits cannot be an undisputed change of a funded channel. */
  lemma {:induction false} NoUndisputedChange(hits: seq<Poll>, p: Poll)
    requires Found(hits) && p.Hit? && p.status.Some? && Found(hits + [p]) && Ordered(hits + [p])
    ensures LastHit(hits).Some? && LastHit(hits).value.funded && LastHit(hits) != p.status ==> p.status.value.disputed
  {
    if hits != [] {
      assert Disputes.Grows((hits + [p])[|hits| - 1].status.value, (hits + [p])[|hits|].status.value);
    }
  }

  lemma {:induction false} ConcludedLast(events: seq<AdjudicatorEvent>)
    requires VersionsGrow(events)
    ensures VersionsGrow(events + [Concluded])
  {}

  /** One more poll that fits what was seen so far. */
  lemma {:induction false} NextIsNotUndisputed(v: View, p: Poll, hits: seq<Poll>)
    requires v.outcome.Failed? ==> v.outcome.error == NoDeadline
    requires VersionsGrow(v.events) && (Step(v, p).outcome == Running ==> VersionsGrow(Step(v, p).events))
    requires Found(hits) && (v.outcome == Running ==> v.last == LastHit(hits))
    requires p.Hit? ==> p.status.Some? && Found(hits + [p]) && Ordered(hits + [p])
    ensures Step(v, p).outcome.Failed? ==> Step(v, p).outcome.error == NoDeadline
    ensures VersionsGrow(Step(v, p).events)
  {
    hide VersionsGrow, Found, Ordered, LastHit;
    ConcludedLast(v.events);
    if p.Hit? {
      NoUndisputedChange(hits, p);
    }
  }

  lemma {:induction false} LastPoll(polls: seq<Poll>)
    requires polls != []
    ensures var n := |polls| - 1;
            && After(polls) == Step(After(polls[..n]), polls[n]) && polls[n] in polls
            && (polls[n].Hit? && polls[n].status.Some? ==> HitsOf(polls) == HitsOf(polls[..n]) + [polls[n]])
  {}

  lemma {:induction false} NothingSeen()
    ensures After([]).outcome == Running && VersionsGrow(After([]).events)
  {}

  /** Against any run of the ledger, however its clients interleave and whenever it is polled: the fatal branch for an
      undisputed update is never taken, and the reported versions never decrease. */
  lemma {:induction false} NeverUndisputed(start: ChannelStatus, ledger: seq<Disputes.Event>, times: seq<nat>,
                                           polls: seq<Poll>)
    requires Sampled(start, ledger, times, polls)
    ensures After(polls).outcome.Failed? ==> After(polls).outcome.error == NoDeadline
    ensures VersionsGrow(After(polls).events)
  {
    hide *;
    if polls == [] {
      NothingSeen();
    } else {
      var n := |polls| - 1;
      SampleLength(start, ledger, times, polls);
      SamplePrefix(start, ledger, times, polls, n);
      NeverUndisputed(start, ledger, times[..n], polls[..n]);
      HitsAreOrdered(start, ledger, times, polls);
      ReportsChanges(polls[..n]);
      ReportsChanges(polls);
      ChangesGrow(HitsOf(polls));
      LastPoll(polls);
      NextIsNotUndisputed(After(polls[..n]), polls[n], HitsOf(polls[..n]));
    }
  }

  lemma {:induction false} SampleLength(start: ChannelStatus, ledger: seq<Disputes.Event>, times: seq<nat>,
                                        polls: seq<Poll>)
    requires Sampled(start, ledger, times, polls)
    ensures |times| == |polls|
  {}
}

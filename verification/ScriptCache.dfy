/** client/script_cache.go and the cached lookups of client/ckbclient.go: a channel id is bound to one type script for
    good, however many lookups run at once. */
module ScriptCaching {
  import opened Wrappers
  import opened Cells

  type ChannelId = nat

  /** Writing the script that is already there is no error; writing another one is. */
  function TrySet(cache: map<ChannelId, Script>, id: ChannelId, script: Script): Option<map<ChannelId, Script>> {
    if id in cache then (if cache[id] == script then Some(cache) else None) else Some(cache[id := script])
  }

  class ScriptCache {
    var cache: map<ChannelId, Script>

    constructor ()
      ensures cache == map[]
    {
      cache := map[];
    }

    method Get(id: ChannelId) returns (script: Option<Script>)
      ensures script == if id in cache then Some(cache[id]) else None
    {
      script := if id in cache then Some(cache[id]) else None;
    }

    method Set(id: ChannelId, script: Script) returns (ok: bool)
      modifies this
      ensures ok <==> TrySet(old(cache), id, script).Some?
      ensures cache == if ok then TrySet(old(cache), id, script).value else old(cache)
      ensures forall k :: k in old(cache) ==> k in cache && cache[k] == old(cache)[k]
      ensures ok <==> id in cache && cache[id] == script
      ensures ok <==> id !in old(cache) || old(cache)[id] == script
    {
      if id in cache {
        return cache[id] == script;
      }
      cache := cache[id := script];
      ok := true;
    }
  }

  // ---------- concurrent lookups ----------

  /** getChannelLiveCellWithCache between its steps. A lookup that misses scans all live cells and takes the first one
      with its id; there may be several, with different scripts, and another scan may see another one first. */
  datatype Lookup =
    | Starting(id: ChannelId, retries: nat)
    | Exact(id: ChannelId, script: Script, retries: nat)
    | Scanning(id: ChannelId, retries: nat)
    | Scanned(id: ChannelId, script: Script, retries: nat)
    | Returned(id: ChannelId, script: Script, retries: nat)
    | Failed(id: ChannelId, retries: nat)

  datatype World = World(cache: map<ChannelId, Script>, lookups: map<nat, Lookup>)

  datatype Event =
    | Begin(p: nat, id: ChannelId)
    | CacheGet(p: nat)
    | FindExact(p: nat, found: bool)
    | Scan(p: nat, first: Option<Script>)
    | CacheSet(p: nat)

  function Next(w: World, e: Event): World {
    if e.Begin? then (if e.p in w.lookups then w else w.(lookups := w.lookups[e.p := Starting(e.id, 0)]))
    else if e.p !in w.lookups then w
    else match (e, w.lookups[e.p])
      case (CacheGet(p), Starting(id, n)) =>
        w.(lookups := w.lookups[p := if id in w.cache then Exact(id, w.cache[id], n) else Scanning(id, n)])
      case (FindExact(p, found), Exact(id, script, n)) =>
        w.(lookups := w.lookups[p := if found then Returned(id, script, n) else Failed(id, n)])
      case (Scan(p, first), Scanning(id, n)) =>
        w.(lookups := w.lookups[p := if first.Some? then Scanned(id, first.value, n) else Failed(id, n)])
      case (CacheSet(p), Scanned(id, script, n)) =>
        (match TrySet(w.cache, id, script)
         case Some(cache) => World(cache, w.lookups[p := Returned(id, script, n)])
         case None => w.(lookups := w.lookups[p := Starting(id, n + 1)]))
      case _ => w
  }

  function Run(events: seq<Event>): World {
    if events == [] then World(map[], map[]) else Next(Run(events[..|events| - 1]), events[|events| - 1])
  }

  predicate Agrees(w: World, l: Lookup) {
    && l.retries <= 1
    && ((l.Returned? || l.Exact?) ==> l.id in w.cache && w.cache[l.id] == l.script)
    && ((l.Starting? || l.Scanned? || l.Scanning?) && l.retries == 1 ==> l.id in w.cache && l.Starting?)
  }

  predicate AllAgree(w: World) {
    forall p :: p in w.lookups ==> Agrees(w, w.lookups[p])
  }

  predicate Extends(a: map<ChannelId, Script>, b: map<ChannelId, Script>) {
    forall id :: id in a ==> id in b && b[id] == a[id]
  }

  lemma {:induction false} StepAgrees(w: World, e: Event)
    requires AllAgree(w)
    ensures AllAgree(Next(w, e)) && Extends(w.cache, Next(w, e).cache)
  {
    var n := Next(w, e);
    forall p | p in n.lookups ensures Agrees(n, n.lookups[p]) {
      if p in w.lookups {
        assert Agrees(w, w.lookups[p]);
      }
    }
  }

  /** Over every interleaving: a cached script is never replaced, and a lookup that was refused retries at most once. */
  lemma {:induction false} CacheIsStable(events: seq<Event>, n: nat)
    requires n <= |events|
    ensures AllAgree(Run(events)) && Extends(Run(events[..n]).cache, Run(events).cache)
  {
    if events != [] {
      var m := |events| - 1;
      CacheIsStable(events[..m], if n <= m then n else m);
      hide Next, AllAgree;
      StepAgrees(Run(events[..m]), events[m]);
      if n <= m {
        assert events[..m][..n] == events[..n];
      }
    }
    if n == |events| {
      assert events[..n] == events;
    }
  }

  /** So any two successful lookups of one id, at any times, return the same script. */
  lemma {:induction false} LookupsAgree(events: seq<Event>, n: nat, p: nat, q: nat)
    requires n <= |events| && p in Run(events[..n]).lookups && q in Run(events).lookups
    requires Run(events[..n]).lookups[p].Returned? && Run(events).lookups[q].Returned?
    requires Run(events[..n]).lookups[p].id == Run(events).lookups[q].id
    ensures Run(events[..n]).lookups[p].script == Run(events).lookups[q].script
  {
    CacheIsStable(events, n);
    CacheIsStable(events[..n], n);
    assert Agrees(Run(events[..n]), Run(events[..n]).lookups[p]) && Agrees(Run(events), Run(events).lookups[q]);
  }

  /** What an exact lookup returns: the cached script, just when a live cell with it was found. */
  lemma {:induction false} ExactReturns(w: World, p: nat, found: bool)
    requires AllAgree(w) && p in w.lookups && w.lookups[p].Exact?
    ensures var l, n := w.lookups[p], Next(w, FindExact(p, found)).lookups;
            p in n && l.id in w.cache &&
            n[p] == if found then Returned(l.id, w.cache[l.id], l.retries) else Failed(l.id, l.retries)
  {
    assert Agrees(w, w.lookups[p]);
  }

  /** And the steps before: a lookup asks for the cached script's cell if there is one and scans otherwise; what a scan
      finds is returned if it can be cached, and else the lookup starts again. */
  lemma {:induction false} LookupMeans(w: World, p: nat, first: Option<Script>)
    requires p in w.lookups
    ensures var l := w.lookups[p];
            match l
            case Starting(id, n) =>
              Next(w, CacheGet(p)).lookups[p] == if id in w.cache then Exact(id, w.cache[id], n) else Scanning(id, n)
            case Scanning(id, n) =>
              Next(w, Scan(p, first)).lookups[p] == if first.Some? then Scanned(id, first.value, n) else Failed(id, n)
            case Scanned(id, script, n) =>
              var v := Next(w, CacheSet(p));
              if id !in w.cache || w.cache[id] == script
              then v == World(w.cache[id := script], w.lookups[p := Returned(id, script, n)])
              else v == World(w.cache, w.lookups[p := Starting(id, n + 1)])
            case _ => true
  {}

  /** Lookup p has found a live cell at step k: an exact one, or by a scan one with this script. */
  predicate FoundAt(events: seq<Event>, p: nat, script: Script, k: nat) {
    k < |events| && (events[k] == FindExact(p, true) || events[k] == Scan(p, Some(script)))
  }

  predicate MissedAt(events: seq<Event>, p: nat, k: nat) {
    k < |events| && (events[k] == FindExact(p, false) || events[k] == Scan(p, None))
  }

  /** Over every run: a lookup returns a script only after it has found a live cell, and fails only after it has found
      none. */
  lemma {:induction false} ReturnsWhatWasFound(events: seq<Event>, p: nat)
    requires p in Run(events).lookups
    ensures var l := Run(events).lookups[p];
            && (l.Returned? || l.Scanned? ==> exists k: nat :: FoundAt(events, p, l.script, k))
            && (l.Failed? ==> exists k: nat :: MissedAt(events, p, k))
  {
    var m := |events| - 1;
    var w, l := Run(events[..m]), Run(events).lookups[p];
    if p in w.lookups {
      ReturnsWhatWasFound(events[..m], p);
      var before := w.lookups[p];
      if (l.Returned? || l.Scanned?) && (before.Returned? || before.Scanned?) && before.script == l.script {
        var k: nat :| FoundAt(events[..m], p, l.script, k);
        assert FoundAt(events, p, l.script, k);
      } else if l.Returned? || l.Scanned? {
        assert FoundAt(events, p, l.script, m);
      } else if l.Failed? && before.Failed? {
        var k: nat :| MissedAt(events[..m], p, k);
        assert MissedAt(events, p, k);
      } else if l.Failed? {
        assert MissedAt(events, p, m);
      }
    }
  }
}

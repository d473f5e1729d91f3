/** The per-instance availability cache: newest version wins, and Default is
    preferred for a payment that has no assignment yet. */
module Routing {
  import opened Domain

  /** Only a newer version replaces the cached one. */
  function ApplyOne(cache: Cache, e: Availability): Cache {
    if e.version <= 0 then cache
    else if e.service !in cache || e.version > cache[e.service].version then cache[e.service := e]
    else cache
  }

  function ApplyAll(cache: Cache, events: seq<Availability>): Cache
    decreases events
  {
    if events == [] then cache else ApplyAll(ApplyOne(cache, events[0]), events[1..])
  }

  predicate KnownAvailable(cache: Cache, p: Processor) {
    p in cache && cache[p].available
  }

  function SelectFrom(cache: Cache): (selected: Option<Processor>)
    ensures selected.None? ==> !KnownAvailable(cache, Default) && !KnownAvailable(cache, Fallback)
    ensures selected.Some? ==> KnownAvailable(cache, selected.value)
    ensures selected == Some(Fallback) ==> !KnownAvailable(cache, Default)
  {
    if Default in cache && cache[Default].available then Some(Default)
    else if Fallback in cache && cache[Fallback].available then Some(Fallback)
    else None
  }

  /** At most one assessment exists for each service and version. */
  ghost predicate OnePerVersion(states: set<Availability>) {
    forall a, b | a in states && b in states :: a.service == b.service && a.version == b.version ==> a == b
  }

  ghost predicate WellKeyed(cache: Cache) {
    forall p | p in cache :: cache[p].service == p && cache[p].version > 0
  }

  function Events(events: seq<Availability>): set<Availability> {
    set e | e in events
  }

  /** Everything a cache could hold for `p` after seeing `events`. */
  ghost function Candidates(cache: Cache, events: set<Availability>, p: Processor): set<Availability> {
    (set e | e in events && e.service == p && e.version > 0) + (if p in cache then {cache[p]} else {})
  }

  ghost predicate IsNewest(e: Availability, candidates: set<Availability>) {
    e in candidates && forall c | c in candidates :: c.version <= e.version
  }

  /** The cache after any delivery order, with any repetitions, holds for each
      processor a newest candidate, and nothing for a processor never heard of. */
  lemma {:induction false} ApplyAllIsNewest(cache: Cache, events: seq<Availability>, p: Processor)
    requires WellKeyed(cache)
    ensures var after := ApplyAll(cache, events);
            && WellKeyed(after)
            && (p in after <==> Candidates(cache, Events(events), p) != {})
            && (p in after ==> IsNewest(after[p], Candidates(cache, Events(events), p)))
    decreases events
  {
    if events == [] {
      if p in cache {
        assert Candidates(cache, Events(events), p) == {cache[p]};
      }
    } else {
      var e := events[0];
      var next := ApplyOne(cache, e);
      ApplyAllIsNewest(next, events[1..], p);
      var after := ApplyAll(cache, events);
      var rest := Candidates(next, Events(events[1..]), p);
      var all := Candidates(cache, Events(events), p);
      assert Events(events) == {e} + Events(events[1..]);
      assert rest <= all;
      forall c | c in all
        ensures p in after && c.version <= after[p].version
      {
        if c !in rest {
          assert p in next && next[p] in rest && c.version <= next[p].version;
        }
      }
    }
  }

  /** Applying events never takes a processor back to an older version. */
  lemma ApplyNeverRegresses(cache: Cache, events: seq<Availability>, p: Processor)
    requires WellKeyed(cache) && p in cache
    ensures p in ApplyAll(cache, events) && ApplyAll(cache, events)[p].version >= cache[p].version
  {
    ApplyAllIsNewest(cache, events, p);
    assert cache[p] in Candidates(cache, Events(events), p);
  }

  /** Two replicas that saw the same set of events agree, whatever the order and
      however often each event arrived. */
  lemma ReplicasConverge(cache: Cache, events: seq<Availability>, events': seq<Availability>)
    requires WellKeyed(cache)
    requires Events(events) == Events(events')
    requires OnePerVersion(Events(events) + cache.Values)
    ensures ApplyAll(cache, events) == ApplyAll(cache, events')
  {
    var after, after' := ApplyAll(cache, events), ApplyAll(cache, events');
    forall p: Processor
      ensures p in after <==> p in after'
      ensures p in after ==> after[p] == after'[p]
    {
      ApplyAllIsNewest(cache, events, p);
      ApplyAllIsNewest(cache, events', p);
      if p in cache {
        assert cache[p] in cache.Values;
      }
    }
    assert after.Keys == after'.Keys;
  }

  lemma {:induction false} ApplyAllConcat(cache: Cache, first: seq<Availability>, second: seq<Availability>)
    ensures ApplyAll(cache, first + second) == ApplyAll(ApplyAll(cache, first), second)
    decreases first
  {
    if first == [] {
      assert first + second == second;
    } else {
      ApplyAllConcat(ApplyOne(cache, first[0]), first[1..], second);
      assert (first + second)[1..] == first[1..] + second;
    }
  }

  /** A replica that lost some events is repaired by seeing all of them later. */
  lemma LossIsRepaired(cache: Cache, received: seq<Availability>, all: seq<Availability>)
    requires WellKeyed(cache)
    requires Events(received) <= Events(all)
    requires OnePerVersion(Events(all) + cache.Values)
    ensures ApplyAll(ApplyAll(cache, received), all) == ApplyAll(cache, all)
  {
    ApplyAllConcat(cache, received, all);
    assert Events(received + all) == Events(all) by {
      forall e
        ensures e in Events(received + all) <==> e in Events(all)
      {
        assert e in received + all <==> e in received || e in all;
        assert e in received ==> e in Events(received);
      }
    }
    ReplicasConverge(cache, received + all, all);
  }
}

/** One instance's availability service: every update is committed to the store,
    then applied to the local cache, then broadcast. */
module AvailabilityServices {
  import opened Domain
  import opened Tables
  import opened Routing
  import opened Stores

  datatype BroadcastOutcome = Sent | NotSent

  /** Pointwise newest of a cache and a table. */
  function Merged(cache: Cache, rows: Cache): Cache {
    map p | p in cache.Keys + rows.Keys ::
      if p in cache && (p !in rows || rows[p].version <= cache[p].version) then cache[p] else rows[p]
  }

  ghost predicate SameAt(a: Cache, b: Cache, p: Processor) {
    (p in a <==> p in b) && (p in a ==> a[p] == b[p])
  }

  lemma SameEverywhere(a: Cache, b: Cache)
    requires SameAt(a, b, Default) && SameAt(a, b, Fallback)
    ensures a == b
  {
    forall p: Processor
      ensures p in a <==> p in b
      ensures p in a ==> a[p] == b[p]
    {
      assert p == Default || p == Fallback;
    }
    assert a.Keys == b.Keys;
  }

  /** How far hydration got: rows already applied are merged, the rest is untouched. */
  ghost predicate Progress(cache: Cache, start: Cache, rows: Cache, applied: set<Processor>) {
    forall p: Processor ::
      if p in applied && p in rows then
        p in cache && cache[p] == if p in start && rows[p].version <= start[p].version then start[p] else rows[p]
      else
        SameAt(cache, start, p)
  }

  lemma ProgressStep(cache: Cache, start: Cache, rows: Cache, applied: set<Processor>, p: Processor)
    requires WellKeyed(rows) && p in rows && Progress(cache, start, rows, applied)
    ensures Progress(ApplyOne(cache, rows[p]), start, rows, applied + {p})
  {
  }

  lemma ProgressDone(cache: Cache, start: Cache, rows: Cache)
    requires Progress(cache, start, rows, rows.Keys)
    ensures cache == Merged(start, rows)
  {
  }

  function Services(states: seq<Availability>): set<Processor> {
    set e | e in states :: e.service
  }

  lemma ServicesGrow(states: seq<Availability>, i: nat)
    requires i < |states|
    ensures Services(states[..i + 1]) == Services(states[..i]) + {states[i].service}
  {
  }

  lemma ListedRows(states: seq<Availability>, rows: Cache)
    requires WellKeyed(rows)
    requires forall k | 0 <= k < |states| :: exists p :: p in rows && rows[p] == states[k]
    requires forall p | p in rows :: rows[p] in states
    ensures forall k | 0 <= k < |states| :: states[k].service in rows && rows[states[k].service] == states[k]
    ensures Services(states) == rows.Keys
  {
  }

  class Service {
    const store: Store
    var state: Cache
    /** Broadcasts handed to the subject, in order. */
    var broadcasts: seq<Availability>

    constructor (store: Store)
      ensures this.store == store && state == map[] && broadcasts == []
    {
      this.store := store;
      state, broadcasts := map[], [];
    }

    method Apply(e: Availability)
      modifies this`state
      ensures state == ApplyOne(old(state), e)
      ensures forall p: Processor | p != e.service :: SameAt(state, old(state), p)
      ensures if e.version > 0 && (e.service in old(state) ==> e.version > old(state)[e.service].version)
              then e.service in state && state[e.service] == e
              else SameAt(state, old(state), e.service)
    {
      if e.version <= 0 {
        return;
      }
      var known := e.service in state;
      if !known || e.version > state[e.service].version {
        state := state[e.service := e];
      }
    }

    /** Applies the table row by row; the result is the newest of both for each
        processor, whatever order the rows come in. A table that cannot be read is an
        error, and nothing is applied. */
    method Hydrate(readable: bool) returns (ok: bool)
      requires WellKeyed(store.availability)
      modifies this`state
      ensures ok <==> readable
      ensures state == if readable then Merged(old(state), store.availability) else old(state)
    {
      if !readable {
        return false;
      }
      var states := store.ReadProcessorAvailability();
      ghost var start, rows := state, store.availability;
      ListedRows(states, rows);
      var i := 0;
      while i < |states|
        invariant 0 <= i <= |states|
        invariant Progress(state, start, rows, Services(states[..i]))
      {
        ServicesGrow(states, i);
        ProgressStep(state, start, rows, Services(states[..i]), states[i].service);
        Apply(states[i]);
        i := i + 1;
      }
      assert states[..i] == states;
      ProgressDone(state, start, rows);
      return true;
    }

    method Select() returns (selected: Option<Processor>)
      ensures selected == SelectFrom(state)
    {
      if Default in state && state[Default].available {
        return Some(Default);
      }
      if Fallback in state && state[Fallback].available {
        return Some(Fallback);
      }
      return None;
    }

    /** A failure that is not known to be persisted is neither applied nor broadcast. */
    method RecordPassiveFailure(service: Processor, now: Time, persisted: CallOutcome, outcome: BroadcastOutcome)
      returns (ok: bool)
      modifies this`state, this`broadcasts, store`availability
      ensures var row := PassiveRow(old(store.availability), service, now);
              && store.availability == (if persisted.LostUnapplied? then old(store.availability)
                                        else old(store.availability)[service := row])
              && state == (if persisted.Replied? then ApplyOne(old(state), row) else old(state))
              && broadcasts == old(broadcasts) + if persisted.Replied? && outcome.Sent? then [row] else []
      ensures !persisted.LostUnapplied? ==> FailureWritten(old(store.availability), store.availability, service, now)
      ensures ok <==> persisted.Replied? && outcome.Sent?
    {
      if persisted.LostUnapplied? {
        return false;
      }
      var row := store.RecordPassiveFailure(service, now);
      if persisted.LostApplied? {
        return false;
      }
      Apply(row);
      if outcome.NotSent? {
        return false;
      }
      broadcasts := broadcasts + [row];
      return true;
    }

    /** An observation that the store rejects, or is not known to have recorded,
        changes neither the cache nor the subject. */
    method RecordPollObservation(service: Processor, available: bool, startedAt: Time, persisted: CallOutcome,
                                 outcome: BroadcastOutcome)
      returns (accepted: bool, ok: bool)
      modifies this`state, this`broadcasts, store`availability
      ensures var row := PollRow(old(store.availability), service, available, startedAt);
              && store.availability == (if persisted.LostUnapplied? then old(store.availability)
                                        else PolledRows(old(store.availability), service, available, startedAt))
              && (accepted <==> persisted.Replied? && row.Some?)
              && state == (if accepted then ApplyOne(old(state), row.value) else old(state))
              && broadcasts == old(broadcasts) + if accepted && outcome.Sent? then [row.value] else []
      ensures ok <==> persisted.Replied? && (accepted ==> outcome.Sent?)
      ensures !persisted.LostUnapplied? ==>
                PollWritten(old(store.availability), store.availability, service, available, startedAt)
      ensures persisted.Replied? ==> (accepted <==> !TooOld(old(store.availability), service, available, startedAt))
    {
      if persisted.LostUnapplied? {
        return false, false;
      }
      var row := store.RecordPollObservation(service, available, startedAt);
      if persisted.LostApplied? {
        return false, false;
      }
      if row.None? {
        return false, true;
      }
      Apply(row.value);
      if outcome.NotSent? {
        return true, false;
      }
      broadcasts := broadcasts + [row.value];
      return true, true;
    }
  }

  /** Hydrating is the same as receiving every stored row as an event, in any order. */
  lemma HydrationIsDelivery(cache: Cache, rows: Cache, events: seq<Availability>)
    requires WellKeyed(cache) && WellKeyed(rows)
    requires Events(events) == rows.Values
    requires OnePerVersion(rows.Values + cache.Values)
    ensures ApplyAll(cache, events) == Merged(cache, rows)
  {
    DeliveredAt(cache, rows, events, Default);
    DeliveredAt(cache, rows, events, Fallback);
    SameEverywhere(ApplyAll(cache, events), Merged(cache, rows));
  }

  lemma DeliveredAt(cache: Cache, rows: Cache, events: seq<Availability>, p: Processor)
    requires WellKeyed(cache) && WellKeyed(rows)
    requires Events(events) == rows.Values
    requires OnePerVersion(rows.Values + cache.Values)
    ensures SameAt(ApplyAll(cache, events), Merged(cache, rows), p)
  {
    MergedIsNewest(cache, rows, p);
    DeliveredIsNewest(cache, rows, events, p);
    var delivered, merged := ApplyAll(cache, events), Merged(cache, rows);
    if p in delivered {
      NewestIsUnique(delivered[p], merged[p], Candidates(cache, rows.Values, p), rows.Values + cache.Values, p);
    }
  }

  lemma DeliveredIsNewest(cache: Cache, rows: Cache, events: seq<Availability>, p: Processor)
    requires WellKeyed(cache) && Events(events) == rows.Values
    ensures var candidates := Candidates(cache, rows.Values, p);
            var delivered := ApplyAll(cache, events);
            && (p in delivered <==> candidates != {})
            && (p in delivered ==> IsNewest(delivered[p], candidates))
  {
    ApplyAllIsNewest(cache, events, p);
  }

  lemma NewestIsUnique(a: Availability, b: Availability, candidates: set<Availability>, states: set<Availability>,
                       p: Processor)
    requires IsNewest(a, candidates) && IsNewest(b, candidates)
    requires candidates <= states && OnePerVersion(states)
    requires forall e | e in candidates :: e.service == p
    ensures a == b
  {
  }

  lemma MergedIsNewest(cache: Cache, rows: Cache, p: Processor)
    requires WellKeyed(cache) && WellKeyed(rows)
    ensures var candidates := Candidates(cache, rows.Values, p);
            && (p in Merged(cache, rows) <==> candidates != {})
            && (p in Merged(cache, rows) ==> IsNewest(Merged(cache, rows)[p], candidates))
    ensures Candidates(cache, rows.Values, p) <= rows.Values + cache.Values
    ensures forall e | e in Candidates(cache, rows.Values, p) :: e.service == p
  {
    var candidates := Candidates(cache, rows.Values, p);
    assert forall e | e in candidates :: (p in cache && e == cache[p]) || (p in rows && e == rows[p]);
    if p in rows {
      assert rows[p] in rows.Values && rows[p] in candidates;
    }
    if p in cache {
      assert cache[p] in cache.Values && cache[p] in candidates;
    }
  }
}

/** Every copy of an assessment, in any cache or in flight, is a row that was
    committed; and an instance that subscribed before it read the table ends up
    with the table, once nothing is in flight. */
module Convergence {
  import opened Domain
  import opened Tables
  import opened Routing
  import opened Replication

  lemma ApplyKeepsGenuine(h: Both<seq<Update>>, cache: Cache, e: Availability)
    requires GenuineCache(h, cache) && Genuine(h, e)
    ensures GenuineCache(h, ApplyOne(cache, e))
  {
  }

  lemma RowsAreGenuine(s: State)
    requires HistoryOk(s)
    ensures forall p | p in s.rows :: s.rows[p].service == p && Genuine(s.history, s.rows[p])
  {
  }

  /** Steps that leave every cache, inbox and hydration where they are, or forget. */
  predicate OnlyForgets(l: Label) {
    !(l.Subscribe? || l.ReadRows? || l.HydrateNext? || l.ApplyLocally? || l.Broadcast? || l.Deliver?)
  }

  lemma ForgettingStep(s: State, l: Label, now: Time, i: Instance)
    requires Enabled(s, l) && OnlyForgets(l) && i in Do(s, l, now).nodes
    ensures i in s.nodes
    ensures var n, n' := s.nodes[i], Do(s, l, now).nodes[i];
            && n'.cache == n.cache && n'.phase == n.phase && n'.inbox <= n.inbox
            && (!(l.Lose? && l.i == i) ==> n'.inbox == n.inbox)
  {
  }

  lemma ReadingStepOk(s: State, i: Instance, fallbackFirst: bool, now: Time)
    requires Enabled(s, ReadRows(i, fallbackFirst)) && HistoryOk(s) && NodeOk(s.history, s.nodes[i])
    ensures NodeOk(s.history, Do(s, ReadRows(i, fallbackFirst), now).nodes[i])
  {
  }

  lemma HydratingStepOk(s: State, i: Instance, now: Time)
    requires Enabled(s, HydrateNext(i)) && NodeOk(s.history, s.nodes[i])
    ensures NodeOk(s.history, Do(s, HydrateNext(i), now).nodes[i])
  {
  }

  /** What a node looks like after a step, seen against the rows committed before it. */
  lemma SteppedNodeOk(s: State, l: Label, now: Time, i: Instance)
    requires Enabled(s, l) && HistoryOk(s) && CopiesOk(s)
    requires i in Do(s, l, now).nodes
    ensures NodeOk(s.history, Do(s, l, now).nodes[i])
  {
    if OnlyForgets(l) {
      ForgettingStep(s, l, now, i);
      assert NodeOk(s.history, s.nodes[i]);
    } else if i in s.nodes {
      assert NodeOk(s.history, s.nodes[i]);
      match l
      case ReadRows(j, fallbackFirst) =>
        if i == j {
          ReadingStepOk(s, i, fallbackFirst, now);
        }
      case HydrateNext(j) =>
        if i == j {
          HydratingStepOk(s, i, now);
        }
      case ApplyLocally(n) =>
        ApplyKeepsGenuine(s.history, s.nodes[i].cache, n.state);
      case Broadcast(n) =>
        assert Do(s, l, now).nodes[i].inbox == s.nodes[i].inbox + {n.state};
      case Deliver(j, e, again) =>
        assert NodeOk(s.history, s.nodes[j]);
        ApplyKeepsGenuine(s.history, s.nodes[i].cache, e);
      case _ =>
    }
  }

  lemma SteppedNoticeOk(s: State, l: Label, now: Time, n: Notice)
    requires Enabled(s, l) && HistoryOk(s) && CopiesOk(s)
    requires n in Do(s, l, now).notices
    ensures Genuine(Do(s, l, now).history, n.state)
  {
    StepKeepsHistory(s, l, now);
    var s' := Do(s, l, now);
    if n in s.notices {
      GenuineStable(s.history, s'.history, n.state);
    } else if l.Passive? {
      UpsertVersions(s, l.service, now, false, now);
      CommitKeepsHistory(s, l.i, PassiveRow(s.rows, l.service, now), PassiveFailure(now), l.replied);
    } else if l.Record? {
      var c := s.nodes[l.i].poller;
      UpsertVersions(s, c.service, now, c.available, c.startedAt);
      var row := PollRow(s.rows, c.service, c.available, c.startedAt);
      CommitKeepsHistory(NextPoll(s, l.i), l.i, row.value, HealthPoll(c.available, c.startedAt), l.replied);
    } else {
      assert l.ApplyLocally? && n == l.n.(applied := true);
    }
  }

  /** No step puts anything but committed rows into a cache, an inbox or a notice. */
  lemma StepKeepsCopies(s: State, l: Label, now: Time)
    requires Enabled(s, l) && HistoryOk(s) && CopiesOk(s)
    ensures HistoryOk(Do(s, l, now)) && CopiesOk(Do(s, l, now))
  {
    StepKeepsHistory(s, l, now);
    var s' := Do(s, l, now);
    forall i | i in s'.nodes
      ensures NodeOk(s'.history, s'.nodes[i])
    {
      SteppedNodeOk(s, l, now, i);
      NodeStable(s.history, s'.history, s'.nodes[i]);
    }
    forall n | n in s'.notices
      ensures Genuine(s'.history, n.state)
    {
      SteppedNoticeOk(s, l, now, n);
    }
  }

  // ----- Subscribing before hydrating leaves no gap -----

  predicate Announced(notices: set<Notice>, e: Availability) {
    exists n | n in notices :: n.state == e
  }

  /** The current row is already cached, or something that will bring it is pending. */
  ghost predicate Covered(s: State, n: Node, p: Processor) {
    p in s.rows ==>
      || n.phase.Subscribed?
      || (p in n.cache && n.cache[p].version >= s.rows[p].version)
      || (n.phase.Hydrating? && s.rows[p] in n.phase.remaining)
      || s.rows[p] in n.inbox
      || Announced(s.notices, s.rows[p])
  }

  ghost predicate NoGap(s: State, i: Instance) {
    i in s.nodes ==> Covered(s, s.nodes[i], Default) && Covered(s, s.nodes[i], Fallback)
  }

  /** Nothing meant for `i` is lost, and once `i` has read the table no sender keeps
      quiet about an update it committed. */
  predicate ReliableFor(s: State, l: Label, i: Instance) {
    match l
    case Lose(j, _) => j != i
    case Skip(_) => i !in s.nodes || s.nodes[i].phase.Subscribed?
    case Passive(_, _, replied) => replied || i !in s.nodes || s.nodes[i].phase.Subscribed?
    case Record(_, replied) => replied || i !in s.nodes || s.nodes[i].phase.Subscribed?
    case _ => true
  }

  lemma CommitCovers(s: State, i: Instance, n: Node, row: Availability, cause: Cause, p: Processor)
    requires Covered(s, n, p)
    ensures Covered(Commit(s, i, row, cause, true), n, p)
  {
  }

  /** Hydration steps consume what they read only by applying it. */
  lemma HydratingKeepsCovered(s: State, i: Instance, now: Time, p: Processor)
    requires Enabled(s, HydrateNext(i)) && HistoryOk(s) && CopiesOk(s)
    requires Covered(s, s.nodes[i], p)
    ensures var s' := Do(s, HydrateNext(i), now); Covered(s', s'.nodes[i], p)
  {
    RowsAreGenuine(s);
    var n := s.nodes[i];
    if n.phase.remaining != [] && p in s.rows && s.rows[p] in n.phase.remaining {
      assert s.rows[p] == n.phase.remaining[0] || s.rows[p] in n.phase.remaining[1..];
    }
  }

  lemma DeliveryKeepsCovered(s: State, i: Instance, e: Availability, again: bool, now: Time, p: Processor)
    requires Enabled(s, Deliver(i, e, again)) && HistoryOk(s) && CopiesOk(s)
    requires Covered(s, s.nodes[i], p)
    ensures var s' := Do(s, Deliver(i, e, again), now); Covered(s', s'.nodes[i], p)
  {
  }

  lemma SendingKeepsCovered(s: State, l: Label, now: Time, i: Instance, p: Processor)
    requires Enabled(s, l) && (l.ApplyLocally? || l.Broadcast?)
    requires i in s.nodes && Covered(s, s.nodes[i], p)
    ensures var s' := Do(s, l, now); i in s'.nodes && Covered(s', s'.nodes[i], p)
  {
  }

  lemma CommittingKeepsCovered(s: State, l: Label, now: Time, i: Instance, p: Processor)
    requires Enabled(s, l) && (l.Passive? || l.Record?)
    requires i in s.nodes && Covered(s, s.nodes[i], p) && ReliableFor(s, l, i)
    ensures var s' := Do(s, l, now); i in s'.nodes && Covered(s', s'.nodes[i], p)
  {
    if s.nodes[i].phase.Subscribed? {
      assert Do(s, l, now).nodes[i].phase.Subscribed?;
    } else if l.Passive? {
      CommitCovers(s, l.i, s.nodes[i], PassiveRow(s.rows, l.service, now), PassiveFailure(now), p);
    } else {
      var c := s.nodes[l.i].poller;
      var row := PollRow(s.rows, c.service, c.available, c.startedAt);
      var s1 := NextPoll(s, l.i);
      assert Covered(s1, s1.nodes[i], p);
      if row.Some? {
        CommitCovers(s1, l.i, s1.nodes[i], row.value, HealthPoll(c.available, c.startedAt), p);
      }
    }
  }

  lemma StepKeepsCovered(s: State, l: Label, now: Time, i: Instance, p: Processor)
    requires Enabled(s, l) && HistoryOk(s) && CopiesOk(s)
    requires i in s.nodes && Covered(s, s.nodes[i], p) && ReliableFor(s, l, i)
    requires i in Do(s, l, now).nodes
    ensures Covered(Do(s, l, now), Do(s, l, now).nodes[i], p)
  {
    if l.Passive? || l.Record? {
      CommittingKeepsCovered(s, l, now, i, p);
    } else if l.ApplyLocally? || l.Broadcast? {
      SendingKeepsCovered(s, l, now, i, p);
    } else if l.HydrateNext? && l.i == i {
      HydratingKeepsCovered(s, i, now, p);
    } else if l.Deliver? && l.i == i {
      DeliveryKeepsCovered(s, i, l.e, l.again, now, p);
    } else {
      QuietStepKeepsCovered(s, l, now, i, p);
    }
  }

  lemma QuietStepKeepsCovered(s: State, l: Label, now: Time, i: Instance, p: Processor)
    requires Enabled(s, l) && !(l.Passive? || l.Record? || l.ApplyLocally? || l.Broadcast?)
    requires !((l.HydrateNext? || l.Deliver?) && l.i == i)
    requires i in s.nodes && Covered(s, s.nodes[i], p) && ReliableFor(s, l, i)
    requires i in Do(s, l, now).nodes
    ensures Covered(Do(s, l, now), Do(s, l, now).nodes[i], p)
  {
    var s' := Do(s, l, now);
    assert s'.rows == s.rows;
    if OnlyForgets(l) {
      ForgettingStep(s, l, now, i);
      assert !l.Skip? ==> s'.notices == s.notices;
    } else {
      assert s'.notices == s.notices;
      assert !(l.ReadRows? && l.i == i) ==> s'.nodes[i] == s.nodes[i];
    }
  }

  lemma StepKeepsNoGap(s: State, l: Label, now: Time, i: Instance)
    requires Enabled(s, l) && HistoryOk(s) && CopiesOk(s)
    requires NoGap(s, i) && ReliableFor(s, l, i)
    ensures NoGap(Do(s, l, now), i)
  {
    if i in s.nodes && i in Do(s, l, now).nodes {
      StepKeepsCovered(s, l, now, i, Default);
      StepKeepsCovered(s, l, now, i, Fallback);
    }
  }

  /** With nothing in flight, a hydrated instance without a gap holds the table. */
  lemma QuietCacheIsTable(s: State, i: Instance)
    requires HistoryOk(s) && CopiesOk(s) && NoGap(s, i)
    requires i in s.nodes && s.nodes[i].phase.Live? && s.nodes[i].inbox == {} && s.notices == {}
    ensures s.nodes[i].cache == s.rows
  {
    var cache := s.nodes[i].cache;
    assert NodeOk(s.history, s.nodes[i]);
    forall p: Processor
      ensures p in cache <==> p in s.rows
      ensures p in cache ==> cache[p] == s.rows[p]
    {
      assert HistoryOkAt(s, p);
      assert p == Default || p == Fallback;
    }
    assert cache.Keys == s.rows.Keys;
  }
}

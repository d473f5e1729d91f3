/** The protocol's safety properties, for every run of the whole system. */
module Safety {
  import opened Domain
  import opened Tables
  import opened Routing
  import opened System
  import opened Invariants
  import opened Preservation
  import R = Replication
  import Convergence
  import Recovery
  import Leadership

  lemma Reached(cfg: Config, clock: Time, ls: seq<Label>)
    requires Legal(Init(cfg, clock), ls)
    ensures Inv(Run(Init(cfg, clock), ls))
  {
    InitInv(cfg, clock);
    RunKeepsInv(Init(cfg, clock), ls);
  }

  /** Some run from a fresh system leads here. */
  ghost predicate Reachable(s: State) {
    exists cfg, clock, ls :: Legal(Init(cfg, clock), ls) && Run(Init(cfg, clock), ls) == s
  }

  lemma ReachableMeansInv(s: State)
    requires Reachable(s)
    ensures Inv(s)
  {
    var cfg, clock, ls :| Legal(Init(cfg, clock), ls) && Run(Init(cfg, clock), ls) == s;
    Reached(cfg, clock, ls);
  }

  /** Everything submitted to `p` belongs to it for good, and everything it recorded
      was submitted. */
  ghost predicate OnlyOwnPayments(s: State, p: Processor) {
    && (forall id | id in s.books.Of(p).sent ::
          && id in s.payments
          && s.payments[id].assignment == Some(p)
          && s.books.Of(p).sent[id] == Entry(s.payments[id].amount, s.payments[id].requestedAt))
    && (forall id | id in s.books.Of(p).recorded ::
          id in s.books.Of(p).sent && s.books.Of(p).recorded[id] == s.books.Of(p).sent[id])
  }

  /** No payment is ever submitted to, or recorded by, both processors: not by a
      worker whose lease was taken over, not by a submission that arrives late.
      Whatever was sent went to the payment's assignment, with its stored values. */
  lemma ChargedAtOneProcessor(cfg: Config, clock: Time, ls: seq<Label>, id: Uuid)
    requires Legal(Init(cfg, clock), ls)
    ensures var s := Run(Init(cfg, clock), ls);
            && !(id in s.books.default.sent && id in s.books.fallback.sent)
            && !(id in s.books.default.recorded && id in s.books.fallback.recorded)
            && OnlyOwnPayments(s, Default) && OnlyOwnPayments(s, Fallback)
  {
    Reached(cfg, clock, ls);
    OwnPayments(Run(Init(cfg, clock), ls), Default);
    OwnPayments(Run(Init(cfg, clock), ls), Fallback);
  }

  lemma OwnPayments(s: State, p: Processor)
    requires BookOk(s, p)
    ensures OnlyOwnPayments(s, p)
  {
  }

  /** Amount, acceptance time, assignment and completion of a payment are permanent
      across every continuation of every run. */
  lemma PaymentFactsArePermanent(cfg: Config, clock: Time, ls: seq<Label>, more: seq<Label>, id: Uuid)
    requires Legal(Init(cfg, clock), ls) && Legal(Run(Init(cfg, clock), ls), more)
    requires id in Run(Init(cfg, clock), ls).payments
    ensures var s := Run(Init(cfg, clock), ls);
            var s' := Run(s, more);
            && id in s'.payments
            && s'.payments[id].amount == s.payments[id].amount
            && s'.payments[id].requestedAt == s.payments[id].requestedAt
            && (s.payments[id].assignment.Some? ==> s'.payments[id].assignment == s.payments[id].assignment)
            && (s.payments[id].state.Completed? ==> s'.payments[id] == s.payments[id])
            && id in s.outbox && id in s'.outbox
            && (s.outbox[id].state.Dispatched? ==> s'.outbox[id] == s.outbox[id])
  {
    Reached(cfg, clock, ls);
    RunKeepsInv(Run(Init(cfg, clock), ls), more);
    assert RowExtends(Run(Init(cfg, clock), ls).payments[id], Run(Run(Init(cfg, clock), ls), more).payments[id]);
  }

  /** Every accepted payment that is not completed has an outbox row still to be
      dispatched or a message still in the stream; and a row is dispatched only
      after its message was stored. */
  lemma NoLostWork(cfg: Config, clock: Time, ls: seq<Label>, id: Uuid)
    requires Legal(Init(cfg, clock), ls)
    ensures var s := Run(Init(cfg, clock), ls);
            && (id in s.payments <==> id in s.outbox)
            && (id in s.payments && !s.payments[id].state.Completed? ==>
                  !s.outbox[id].state.Dispatched? || HasMessage(s.stream, id))
            && (id in s.stream.stored ==> IsCompleted(s, id) || HasMessage(s.stream, id))
            && (id in s.outbox && s.outbox[id].state.Dispatched? ==> id in s.stream.stored)
  {
    Reached(cfg, clock, ls);
  }

  /** All rows of both tables are well formed in every reachable state. */
  lemma RowsWellFormed(cfg: Config, clock: Time, ls: seq<Label>)
    requires Legal(Init(cfg, clock), ls)
    ensures var s := Run(Init(cfg, clock), ls);
            && s.outbox.Keys == s.payments.Keys
            && (forall id | id in s.payments :: PaymentRowOk(s.payments[id]) && OutboxRowOk(s.outbox[id]))
  {
    Reached(cfg, clock, ls);
  }

  /** Accepting a known correlation ID again leaves the entire system unchanged. */
  lemma RepeatedAcceptChangesNothing(cfg: Config, clock: Time, ls: seq<Label>, id: Uuid, amount: int)
    requires Legal(Init(cfg, clock), ls) && id in Run(Init(cfg, clock), ls).payments
    ensures Do(Run(Init(cfg, clock), ls), Accept(id, amount)) == Run(Init(cfg, clock), ls)
  {
  }

  /** The first acceptance of a positive amount decides the payment for good: every
      later state holds its amount and its time, and any further acceptance of the same
      correlation ID leaves the entire system unchanged. */
  lemma FirstAcceptanceWins(cfg: Config, clock: Time, ls: seq<Label>, k: nat, id: Uuid, amount: int, again: int)
    requires Legal(Init(cfg, clock), ls) && k < |ls| && ls[k] == Accept(id, amount) && amount > 0
    requires id !in StateAt(Init(cfg, clock), ls, k).payments
    ensures var s := Run(Init(cfg, clock), ls);
            && id in s.payments
            && s.payments[id].amount == amount
            && s.payments[id].requestedAt == StateAt(Init(cfg, clock), ls, k).clock
            && Do(s, Accept(id, again)) == s
  {
    var s0 := Init(cfg, clock);
    StepAt(s0, ls, k);
    LaterExtends(cfg, clock, ls, k + 1);
    assert RowExtends(StateAt(s0, ls, k + 1).payments[id], Run(s0, ls).payments[id]);
    RepeatedAcceptChangesNothing(cfg, clock, ls, id, again);
  }

  // ----- Routing -----

  lemma ReachedAt(cfg: Config, clock: Time, ls: seq<Label>, k: nat)
    requires Legal(Init(cfg, clock), ls) && k <= |ls|
    ensures Inv(StateAt(Init(cfg, clock), ls, k))
  {
    PrefixLegal(Init(cfg, clock), ls, k);
    Reached(cfg, clock, ls[..k]);
  }

  lemma LaterExtends(cfg: Config, clock: Time, ls: seq<Label>, k: nat)
    requires Legal(Init(cfg, clock), ls) && k <= |ls|
    ensures Extends(StateAt(Init(cfg, clock), ls, k), Run(Init(cfg, clock), ls))
  {
    ReachedAt(cfg, clock, ls, k);
    RestOfRun(Init(cfg, clock), ls, k);
    RunKeepsInv(StateAt(Init(cfg, clock), ls, k), ls[k..]);
  }

  predicate StepOf(l: Label, w: Owner) {
    l.WorkerDoes? && l.w == w
  }

  /** At step `k` the worker read its instance's cache, which was `view`, and it has
      taken no step since, up to step `n`. */
  predicate ReadAt(s: State, ls: seq<Label>, k: nat, n: nat, w: Owner, view: Cache)
    requires Legal(s, ls)
  {
    && k < n <= |ls| && ls[k] == WorkerDoes(w, Select)
    && (forall j | k < j < n :: !StepOf(ls[j], w))
    && var before := StateAt(s, ls, k);
       && w in before.workers && before.workers[w].instance in before.replicas.nodes
       && before.replicas.nodes[before.workers[w].instance].cache == view
  }

  predicate HasSelected(s: State, w: Owner) {
    w in s.workers && s.workers[w].pc.Selected?
  }

  lemma {:induction false} SelectionWasRead(cfg: Config, clock: Time, ls: seq<Label>, n: nat, w: Owner)
    requires Legal(Init(cfg, clock), ls) && n <= |ls| && HasSelected(StateAt(Init(cfg, clock), ls, n), w)
    ensures var s := Init(cfg, clock);
            exists k :: ReadAt(s, ls, k, n, w, StateAt(s, ls, n).workers[w].pc.view)
    decreases n
  {
    var s := Init(cfg, clock);
    if n == 0 {
      assert false;
    } else {
      ReachedAt(cfg, clock, ls, n - 1);
      var view := StateAt(s, ls, n).workers[w].pc.view;
      if StepOf(ls[n - 1], w) {
        JustRead(s, ls, n - 1, w);
      } else {
        StillSelected(s, ls, n - 1, w);
        SelectionWasRead(cfg, clock, ls, n - 1, w);
        var k: nat :| ReadAt(s, ls, k, n - 1, w, view);
        StillRead(s, ls, k, n - 1, w, view);
      }
    }
  }

  lemma StillRead(s: State, ls: seq<Label>, k: nat, n: nat, w: Owner, view: Cache)
    requires Legal(s, ls) && n < |ls| && ReadAt(s, ls, k, n, w, view) && !StepOf(ls[n], w)
    ensures ReadAt(s, ls, k, n + 1, w, view)
  {
  }

  lemma JustRead(s: State, ls: seq<Label>, n: nat, w: Owner)
    requires Legal(s, ls) && n < |ls| && StepOf(ls[n], w) && HasSelected(StateAt(s, ls, n + 1), w)
    ensures ReadAt(s, ls, n, n + 1, w, StateAt(s, ls, n + 1).workers[w].pc.view)
  {
    StepAt(s, ls, n);
    OnlySelectSelects(StateAt(s, ls, n), w, ls[n].wstep);
  }

  lemma StillSelected(s: State, ls: seq<Label>, n: nat, w: Owner)
    requires Legal(s, ls) && n < |ls| && !StepOf(ls[n], w) && HasSelected(StateAt(s, ls, n + 1), w)
    requires AgentsOk(StateAt(s, ls, n))
    ensures HasSelected(StateAt(s, ls, n), w)
    ensures StateAt(s, ls, n).workers[w] == StateAt(s, ls, n + 1).workers[w]
  {
    StepAt(s, ls, n);
    OtherWorkerUnmoved(StateAt(s, ls, n), ls[n], w);
  }

  lemma OnlySelectSelects(s: State, w: Owner, step: WorkerStep)
    requires Enabled(s, WorkerDoes(w, step)) && HasSelected(WorkerDo(s, w, step), w)
    ensures step.Select?
    ensures WorkerDo(s, w, step).workers[w].pc.view == s.replicas.nodes[s.workers[w].instance].cache
  {
  }

  predicate Assigned(s: State, id: Uuid) {
    id in s.payments && s.payments[id].assignment.Some?
  }

  predicate AssignedAt(s: State, ls: seq<Label>, m: nat, id: Uuid)
    requires Legal(s, ls)
  {
    m < |ls| && FirstAssignment(StateAt(s, ls, m).payments, StateAt(s, ls, m + 1).payments, id)
  }

  lemma NothingArrivesAssigned(s: State, l: Label, id: Uuid)
    requires Enabled(s, l) && !Assigned(s, id) && Assigned(Do(s, l), id)
    ensures l.WorkerDoes? && l.wstep.ClaimIt? && id in s.payments
  {
    if !(l.WorkerDoes? && l.wstep.ClaimIt?) {
      AssignmentsUntouched(s, l, id);
    }
  }

  lemma {:induction false} AssignmentWasMade(s: State, ls: seq<Label>, n: nat, id: Uuid)
    requires Legal(s, ls) && n <= |ls| && s.payments == map[] && Assigned(StateAt(s, ls, n), id)
    ensures exists m :: AssignedAt(s, ls, m, id)
  {
    if n == 0 {
      assert false;
    } else {
      StepAt(s, ls, n - 1);
      if Assigned(StateAt(s, ls, n - 1), id) {
        AssignmentWasMade(s, ls, n - 1, id);
      } else {
        NothingArrivesAssigned(StateAt(s, ls, n - 1), ls[n - 1], id);
        assert AssignedAt(s, ls, n - 1, id);
      }
    }
  }

  /** Worker `w` read `view` off its instance at step `k`, and its next step, `m`, was
      the claim that assigned the payment; `view` made `p` the choice, by a row of `p`
      that had been committed by step `k`. */
  ghost predicate Chosen(s: State, ls: seq<Label>, k: nat, m: nat, w: Owner, view: Cache, id: Uuid, p: Processor)
    requires Legal(s, ls)
  {
    && ReadAt(s, ls, k, m, w, view)
    && AssignedAt(s, ls, m, id) && StepOf(ls[m], w) && ls[m].wstep.ClaimIt?
    && p in view && view[p].available
    && R.Genuine(StateAt(s, ls, k).replicas.history, view[p])
    && (p == Fallback ==> !KnownAvailable(view, Default))
  }

  lemma ClaimAssigns(s: State, l: Label, id: Uuid)
    requires Enabled(s, l) && FirstAssignment(s.payments, Do(s, l).payments, id)
    requires l.WorkerDoes? ==> WorkerOk(s, s.workers[l.w].pc)
    ensures l.WorkerDoes? && l.wstep.ClaimIt? && HasSelected(s, l.w)
    ensures var pc := s.workers[l.w].pc;
            && Do(s, l).payments[id].assignment == pc.selected == SelectFrom(pc.view)
            && id in Do(s, l).routes && Do(s, l).routes[id] == Route(pc.selected.value, pc.view)
  {
    NothingArrivesAssigned(s, l, id);
    ClaimRoutes(s, l.w, l.wstep.outcome);
  }

  /** Every assignment was made by a worker that had just read its own instance's cache,
      in which that processor's entry was a committed available row; Fallback was
      assigned only when that same cache did not know Default as available. */
  lemma RoutingWasJustified(cfg: Config, clock: Time, ls: seq<Label>, id: Uuid)
    requires Legal(Init(cfg, clock), ls)
    ensures var s := Run(Init(cfg, clock), ls);
            Assigned(s, id) ==>
              && id in s.routes
              && exists k, m, w ::
                   Chosen(Init(cfg, clock), ls, k, m, w, s.routes[id].view, id, s.payments[id].assignment.value)
  {
    var s0 := Init(cfg, clock);
    if Assigned(Run(s0, ls), id) {
      StateAtEnd(s0, ls);
      AssignmentWasMade(s0, ls, |ls|, id);
      var m: nat :| AssignedAt(s0, ls, m, id);
      AssignmentLasts(cfg, clock, ls, m, id);
      var w := ls[m].w;
      var view := StateAt(s0, ls, m).workers[w].pc.view;
      SelectionWasRead(cfg, clock, ls, m, w);
      var k: nat :| ReadAt(s0, ls, k, m, w, view);
      ReachedAt(cfg, clock, ls, k);
      CachedRowsAreGenuine(StateAt(s0, ls, k), w);
      assert Chosen(s0, ls, k, m, w, view, id, Run(s0, ls).payments[id].assignment.value);
    }
  }

  /** The assignment made at step `m` is the one in force at the end, and so is the cache
      kept with it. */
  lemma AssignmentLasts(cfg: Config, clock: Time, ls: seq<Label>, m: nat, id: Uuid)
    requires Legal(Init(cfg, clock), ls) && AssignedAt(Init(cfg, clock), ls, m, id)
    ensures ls[m].WorkerDoes? && ls[m].wstep.ClaimIt? && HasSelected(StateAt(Init(cfg, clock), ls, m), ls[m].w)
    ensures var s := Run(Init(cfg, clock), ls);
            var pc := StateAt(Init(cfg, clock), ls, m).workers[ls[m].w].pc;
            && Assigned(s, id) && s.payments[id].assignment == SelectFrom(pc.view)
            && id in s.routes && s.routes[id].view == pc.view
  {
    var s0 := Init(cfg, clock);
    StepAt(s0, ls, m);
    ReachedAt(cfg, clock, ls, m);
    ClaimAssigns(StateAt(s0, ls, m), ls[m], id);
    LaterExtends(cfg, clock, ls, m + 1);
    assert RowExtends(StateAt(s0, ls, m + 1).payments[id], Run(s0, ls).payments[id]);
  }

  lemma CachedRowsAreGenuine(s: State, w: Owner)
    requires ReplicasOk(s.replicas) && w in s.workers && s.workers[w].instance in s.replicas.nodes
    ensures R.GenuineCache(s.replicas.history, s.replicas.nodes[s.workers[w].instance].cache)
  {
    assert R.NodeOk(s.replicas.history, s.replicas.nodes[s.workers[w].instance]);
  }

  // ----- Availability -----

  /** Every cache entry anywhere is the row committed under its version, a version
      is committed once, and the table holds the highest one. */
  lemma CachesHoldCommittedRows(cfg: Config, clock: Time, ls: seq<Label>, i: Instance, p: Processor)
    requires Legal(Init(cfg, clock), ls)
    ensures var r := Run(Init(cfg, clock), ls).replicas;
            var h := r.history.Of(p);
            && (forall j, k | 0 <= j < k < |h| :: h[j].row.version < h[k].row.version)
            && (i in r.nodes && p in r.nodes[i].cache ==>
                  && p in r.rows
                  && r.nodes[i].cache[p].service == p
                  && R.Genuine(r.history, r.nodes[i].cache[p])
                  && r.nodes[i].cache[p].version <= r.rows[p].version)
  {
    Reached(cfg, clock, ls);
    var r := Run(Init(cfg, clock), ls).replicas;
    assert R.HistoryOkAt(r, p) by {
      assert p == Default || p == Fallback;
    }
    if i in r.nodes {
      assert R.NodeOk(r.history, r.nodes[i]);
    }
  }

  predicate ReliableRun(s: State, ls: seq<Label>, i: Instance)
    requires Legal(s, ls)
    decreases ls
  {
    ls == [] ||
    (var r := ReplicaLabel(s, ls[0]);
     && (r.Some? ==> Convergence.ReliableFor(s.replicas, r.value, i))
     && ReliableRun(Do(s, ls[0]), ls[1..], i))
  }

  lemma {:induction false} ReliableRunHasNoGap(s: State, ls: seq<Label>, i: Instance)
    requires Legal(s, ls) && ReliableRun(s, ls, i) && Inv(s) && Convergence.NoGap(s.replicas, i)
    ensures Convergence.NoGap(Run(s, ls).replicas, i)
    decreases ls
  {
    if ls == [] {
    } else {
      InvHolds(s, ls[0]);
      ReplicaStep(s, ls[0]);
      var r := ReplicaLabel(s, ls[0]);
      if r.Some? {
        Convergence.StepKeepsNoGap(s.replicas, r.value, s.clock, i);
      }
      ReliableRunHasNoGap(Do(s, ls[0]), ls[1..], i);
    }
  }

  /** Subscribing before hydrating loses nothing: under any interleaving of commits,
      deliveries, repetitions and the hydration read, an instance for which nothing
      was lost holds exactly the table once nothing is in flight. */
  lemma SubscribeBeforeHydrate(cfg: Config, clock: Time, ls: seq<Label>, i: Instance)
    requires Legal(Init(cfg, clock), ls) && ReliableRun(Init(cfg, clock), ls, i)
    ensures var r := Run(Init(cfg, clock), ls).replicas;
            i in r.nodes && r.nodes[i].phase.Live? && r.nodes[i].inbox == {} && r.notices == {} ==>
              r.nodes[i].cache == r.rows
  {
    Reached(cfg, clock, ls);
    InitInv(cfg, clock);
    ReliableRunHasNoGap(Init(cfg, clock), ls, i);
    var r := Run(Init(cfg, clock), ls).replicas;
    if i in r.nodes && r.nodes[i].phase.Live? && r.nodes[i].inbox == {} && r.notices == {} {
      Convergence.QuietCacheIsTable(r, i);
    }
  }

  lemma {:induction false} FailuresStayOrdered(s: State, ls: seq<Label>)
    requires Legal(s, ls) && Monotone(s, ls) && Inv(s) && Recovery.FailuresOk(s.replicas, s.clock)
    ensures Recovery.FailuresOk(Run(s, ls).replicas, Run(s, ls).clock)
    decreases ls
  {
    if ls == [] {
    } else {
      InvHolds(s, ls[0]);
      ReplicaStep(s, ls[0]);
      var r := ReplicaLabel(s, ls[0]);
      if r.Some? {
        Recovery.StepKeepsRecovery(s.replicas, r.value, s.clock);
      }
      ClockMoves(s, ls[0]);
      FailuresStayOrdered(Do(s, ls[0]), ls[1..]);
    }
  }

  lemma ClockMoves(s: State, l: Label)
    requires Enabled(s, l)
    ensures Do(s, l).clock == if l.Tick? then l.now else s.clock
    ensures Do(s, l).cfg == s.cfg
  {
    match l
    case WorkerDoes(w, step) => WorkerMovesAlone(s, w, step);
    case DispatcherDoes(d, step) => DispatcherMovesAlone(s, d, step);
    case _ =>
  }

  /** A processor that is available after a passive failure was made so by a healthy
      poll that began strictly after that failure, whatever the clock did; with a
      clock that never goes back, after every passive failure ever committed. */
  lemma PassiveFailureDominates(cfg: Config, clock: Time, ls: seq<Label>, p: Processor)
    requires Legal(Init(cfg, clock), ls)
    ensures var r := Run(Init(cfg, clock), ls).replicas;
            var h := r.history.Of(p);
            p in r.rows && r.rows[p].available ==>
              && |h| > 0
              && Recovery.Last(h).cause.HealthPoll? && Recovery.Last(h).cause.available
              && (r.rows[p].passiveFailureAt.Some? ==>
                    r.rows[p].passiveFailureAt.value < Recovery.Last(h).cause.startedAt)
              && (Monotone(Init(cfg, clock), ls) ==>
                    forall k | 0 <= k < |h| && h[k].cause.PassiveFailure? ::
                      h[k].cause.at < Recovery.Last(h).cause.startedAt)
  {
    Reached(cfg, clock, ls);
    var s := Run(Init(cfg, clock), ls);
    if p in s.replicas.rows && s.replicas.rows[p].available {
      Recovery.AvailableMeansRecovered(s.replicas, p);
      if Monotone(Init(cfg, clock), ls) {
        InitInv(cfg, clock);
        FailuresStayOrdered(Init(cfg, clock), ls);
      }
    }
  }

  predicate LeadsAlive(r: R.State, i: Instance) {
    i in r.nodes && Leadership.IsLeader(r.nodes[i]) && r.nodes[i].poller.session in r.live
  }

  /** At most one instance leads under a live session. A session that ended has at
      most one observation recorded under it afterwards; once it has, the leader's
      next liveness check makes it give up. */
  lemma StaleLeaderIsBounded(cfg: Config, clock: Time, ls: seq<Label>, i: Instance, j: Instance)
    requires Legal(Init(cfg, clock), ls)
    ensures var r := Run(Init(cfg, clock), ls).replicas;
            && (LeadsAlive(r, i) && LeadsAlive(r, j) ==> i == j)
            && (forall session :: R.Stale(r, session) <= 1)
            && (i in r.nodes && Leadership.IsLeader(r.nodes[i]) && R.Stale(r, r.nodes[i].poller.session) == 1 ==>
                  && r.nodes[i].poller.Checking?
                  && R.Do(r, R.CheckAlive(i), clock).nodes[i].poller.Follower?)
  {
    Reached(cfg, clock, ls);
    Leadership.LeadershipMeans(Run(Init(cfg, clock), ls).replicas);
  }

  /** This step records an observation under `session`, which is no longer live. */
  predicate StaleRecord(s: State, l: Label, session: R.Session) {
    && l.Replicate? && l.l.Record? && R.Enabled(s.replicas, l.l)
    && s.replicas.nodes[l.l.i].poller.session == session
    && session !in s.replicas.live
  }

  lemma StaleCounts(s: State, l: Label, session: R.Session)
    requires Enabled(s, l)
    ensures R.Stale(Do(s, l).replicas, session) >= R.Stale(s.replicas, session)
    ensures StaleRecord(s, l, session) ==> R.Stale(Do(s, l).replicas, session) > 0
  {
    ReplicaStep(s, l);
    var r := ReplicaLabel(s, l);
    if r.Some? {
      StaleOnlyGrows(s.replicas, r.value, s.clock, session);
    }
  }

  lemma StaleOnlyGrows(r: R.State, l: R.Label, now: Time, session: R.Session)
    requires R.Enabled(r, l)
    ensures R.Stale(R.Do(r, l, now), session) >= R.Stale(r, session)
    ensures l.Record? && r.nodes[l.i].poller.session == session && session !in r.live ==>
              R.Stale(R.Do(r, l, now), session) > 0
  {
  }

  lemma {:induction false} StaysStale(s: State, ls: seq<Label>, j: nat, k: nat, session: R.Session)
    requires Legal(s, ls) && j <= k <= |ls|
    ensures R.Stale(StateAt(s, ls, k).replicas, session) >= R.Stale(StateAt(s, ls, j).replicas, session)
    decreases k
  {
    if j == k {
    } else {
      StaysStale(s, ls, j, k - 1, session);
      StepAt(s, ls, k - 1);
      StaleCounts(StateAt(s, ls, k - 1), ls[k - 1], session);
    }
  }

  lemma NobodyIsTwiceStale(s: State, l: Label, session: R.Session)
    requires Leadership.LeadershipOk(s.replicas) && StaleRecord(s, l, session)
    ensures R.Stale(s.replicas, session) == 0
  {
    assert Leadership.LeaderOk(s.replicas, l.l.i);
  }

  /** Of all the steps of a run, at most one records an observation under a session
      that has already ended. */
  lemma OneStaleRecord(cfg: Config, clock: Time, ls: seq<Label>, j: nat, k: nat, session: R.Session)
    requires Legal(Init(cfg, clock), ls) && j < k < |ls|
    ensures !(&& StaleRecord(StateAt(Init(cfg, clock), ls, j), ls[j], session)
              && StaleRecord(StateAt(Init(cfg, clock), ls, k), ls[k], session))
  {
    var s0 := Init(cfg, clock);
    var before, later := StateAt(s0, ls, j), StateAt(s0, ls, k);
    if StaleRecord(before, ls[j], session) && StaleRecord(later, ls[k], session) {
      StepAt(s0, ls, j);
      StaleCounts(before, ls[j], session);
      StaysStale(s0, ls, j + 1, k, session);
      ReachedAt(cfg, clock, ls, k);
      NobodyIsTwiceStale(later, ls[k], session);
    }
  }
}

/** The faults are real: a stopped agent never acts again, an ended session never leads
    again, and without the assumption of reliable delivery a cache does miss updates. */
module Faults {
  import opened Domain
  import opened Tables
  import opened System
  import opened Invariants
  import opened Preservation
  import opened Safety
  import opened Drain
  import R = Replication

  // ----- Stopped agents -----

  /** A name is used once: whoever is present after a step, and known before it, was
      present before it. */
  lemma Resident(s: State, l: Label, o: Owner)
    requires Enabled(s, l) && o in s.names
    ensures o in Do(s, l).workers ==> o in s.workers
    ensures o in Do(s, l).dispatchers ==> o in s.dispatchers
  {
    match l
    case WorkerDoes(v, step) => WorkerMovesAlone(s, v, step);
    case DispatcherDoes(d, step) => DispatcherMovesAlone(s, d, step);
    case _ =>
  }

  lemma NamesLast(cfg: Config, clock: Time, ls: seq<Label>, j: nat, k: nat, o: Owner)
    requires Legal(Init(cfg, clock), ls) && j <= k <= |ls| && o in StateAt(Init(cfg, clock), ls, j).names
    ensures o in StateAt(Init(cfg, clock), ls, k).names
  {
    PrefixLegal(Init(cfg, clock), ls, k);
    assert ls[..k][..j] == ls[..j];
    LaterExtends(cfg, clock, ls[..k], j);
  }

  predicate Absent(s: State, o: Owner) {
    o in s.names && o !in s.workers && o !in s.dispatchers
  }

  lemma {:induction false} StaysAbsent(cfg: Config, clock: Time, ls: seq<Label>, j: nat, k: nat, o: Owner)
    requires Legal(Init(cfg, clock), ls) && j <= k <= |ls| && Absent(StateAt(Init(cfg, clock), ls, j), o)
    ensures Absent(StateAt(Init(cfg, clock), ls, k), o)
    decreases k
  {
    if j == k {
    } else {
      StaysAbsent(cfg, clock, ls, j, k - 1, o);
      StepAt(Init(cfg, clock), ls, k - 1);
      Resident(StateAt(Init(cfg, clock), ls, k - 1), ls[k - 1], o);
      NamesLast(cfg, clock, ls, j, k, o);
    }
  }

  /** The step stops this agent: by itself, or with its whole instance. */
  predicate Stops(s: State, l: Label, o: Owner) {
    || l == Crash(o)
    || (l.Replicate? && l.l.Stop?
        && ((o in s.workers && s.workers[o].instance == l.l.i)
            || (o in s.dispatchers && s.dispatchers[o].instance == l.l.i)))
  }

  predicate ActsAs(l: Label, o: Owner) {
    (l.WorkerDoes? && l.w == o) || (l.DispatcherDoes? && l.d == o)
  }

  ghost predicate OneRole(s: State) {
    forall o | o in s.workers :: o !in s.dispatchers
  }

  lemma {:induction false} RolesAreApart(cfg: Config, clock: Time, ls: seq<Label>, k: nat)
    requires Legal(Init(cfg, clock), ls) && k <= |ls|
    ensures OneRole(StateAt(Init(cfg, clock), ls, k))
  {
    if k == 0 {
    } else {
      RolesAreApart(cfg, clock, ls, k - 1);
      StepAt(Init(cfg, clock), ls, k - 1);
      ReachedAt(cfg, clock, ls, k - 1);
      RolesKept(StateAt(Init(cfg, clock), ls, k - 1), ls[k - 1]);
    }
  }

  lemma RolesKept(s: State, l: Label)
    requires Enabled(s, l) && AgentsOk(s) && OneRole(s)
    ensures OneRole(Do(s, l))
  {
    match l
    case WorkerDoes(v, step) => WorkerMovesAlone(s, v, step);
    case DispatcherDoes(d, step) => DispatcherMovesAlone(s, d, step);
    case _ =>
  }

  lemma StoppingRemoves(s: State, l: Label, o: Owner)
    requires Enabled(s, l) && Stops(s, l, o) && AgentsOk(s) && OneRole(s)
    ensures Absent(Do(s, l), o)
  {
  }

  /** Whatever stops an agent, no later step of the run is taken in its name: its owner
      string dies with it, and so do its leases' chances of being ended by it. */
  lemma StoppedForGood(cfg: Config, clock: Time, ls: seq<Label>, j: nat, k: nat, o: Owner)
    requires Legal(Init(cfg, clock), ls) && j < k < |ls| && Stops(StateAt(Init(cfg, clock), ls, j), ls[j], o)
    ensures !ActsAs(ls[k], o)
  {
    StepAt(Init(cfg, clock), ls, j);
    ReachedAt(cfg, clock, ls, j);
    RolesAreApart(cfg, clock, ls, j);
    StoppingRemoves(StateAt(Init(cfg, clock), ls, j), ls[j], o);
    StaysAbsent(cfg, clock, ls, j + 1, k, o);
    StepAt(Init(cfg, clock), ls, k);
  }

  // ----- Ended sessions -----

  predicate Over(r: R.State, session: R.Session) {
    session in r.used && session !in r.live
  }

  lemma OverStaysOver(s: State, l: Label, session: R.Session)
    requires Enabled(s, l) && Over(s.replicas, session)
    ensures Over(Do(s, l).replicas, session)
  {
    ReplicaStep(s, l);
    var r := ReplicaLabel(s, l);
    if r.Some? {
      ReplicaOver(s.replicas, r.value, s.clock, session);
    }
  }

  lemma ReplicaOver(r: R.State, l: R.Label, now: Time, session: R.Session)
    requires R.Enabled(r, l) && Over(r, session)
    ensures Over(R.Do(r, l, now), session)
  {
  }

  lemma {:induction false} StaysOver(s: State, ls: seq<Label>, j: nat, k: nat, session: R.Session)
    requires Legal(s, ls) && j <= k <= |ls| && Over(StateAt(s, ls, j).replicas, session)
    ensures Over(StateAt(s, ls, k).replicas, session)
    decreases k
  {
    if j == k {
    } else {
      StaysOver(s, ls, j, k - 1, session);
      StepAt(s, ls, k - 1);
      OverStaysOver(StateAt(s, ls, k - 1), ls[k - 1], session);
    }
  }

  lemma EndingIsOver(s: State, session: R.Session)
    requires Enabled(s, Replicate(R.EndSession(session))) && ReplicasOk(s.replicas)
    ensures Over(Do(s, Replicate(R.EndSession(session))).replicas, session)
  {
  }

  /** Once a session has ended, no liveness check under it ever passes. */
  lemma EndedSessionNeverPasses(cfg: Config, clock: Time, ls: seq<Label>, j: nat, k: nat, i: Instance)
    requires Legal(Init(cfg, clock), ls) && j < k < |ls|
    requires ls[j].Replicate? && ls[j].l.EndSession? && ls[k] == Replicate(R.CheckAlive(i))
    requires var r := StateAt(Init(cfg, clock), ls, k).replicas;
             i in r.nodes && r.nodes[i].poller.Checking? && r.nodes[i].poller.session == ls[j].l.session
    ensures var r := StateAt(Init(cfg, clock), ls, k + 1).replicas;
            i in r.nodes && r.nodes[i].poller.Follower?
  {
    var s := Init(cfg, clock);
    StepAt(s, ls, j);
    ReachedAt(cfg, clock, ls, j);
    EndingIsOver(StateAt(s, ls, j), ls[j].l.session);
    StaysOver(s, ls, j + 1, k, ls[j].l.session);
    StepAt(s, ls, k);
  }

  // ----- Lost updates -----

  /** A hydrated instance with nothing in flight, whose cache is not the table. */
  ghost predicate Missed(cfg: Config, ls: seq<Label>, i: Instance) {
    && Legal(Init(cfg, 0), ls)
    && var r := Run(Init(cfg, 0), ls).replicas;
       && i in r.nodes && r.nodes[i].phase.Live? && r.nodes[i].inbox == {} && r.notices == {}
       && r.nodes[i].cache != r.rows
  }

  lemma TwoInstances(s: State, st: Confirmation) returns (r: R.State)
    requires s.replicas == R.INITIAL
    ensures Leads(s, s.(replicas := r), st)
    ensures r == R.INITIAL.(nodes := r.nodes) && r.nodes.Keys == {0, 1}
    ensures forall i | i in r.nodes :: r.nodes[i] == R.Node(R.Live, map[], {}, R.Follower)
  {
    LeadsNowhere(s, st);
    assert s.(replicas := s.replicas) == s;
    var r1 := JoiningEmpty(s, s.replicas, 0, st);
    r := JoiningEmpty(s, r1, 1, st);
  }

  lemma JoiningEmpty(s: State, r: R.State, i: Instance, st: Confirmation) returns (r': R.State)
    requires Leads(s, s.(replicas := r), st) && i !in r.nodes && r.rows == map[]
    ensures Leads(s, s.(replicas := r'), st)
    ensures r' == r.(nodes := r.nodes[i := R.Node(R.Live, map[], {}, R.Follower)])
  {
    var r1 := AndThen(s, r, R.Subscribe(i), st);
    var r2 := AndThen(s, r1, R.ReadRows(i, false), st);
    r' := AndThen(s, r2, R.HydrateNext(i), st);
  }

  lemma Observing(s: State, r: R.State, st: Confirmation) returns (r': R.State)
    requires Leads(s, s.(replicas := r), st) && r == R.INITIAL.(nodes := r.nodes) && r.nodes.Keys == {0, 1}
    requires forall i | i in r.nodes :: r.nodes[i] == R.Node(R.Live, map[], {}, R.Follower)
    ensures Leads(s, s.(replicas := r'), st)
    ensures r'.rows == map[] && r'.notices == {} && r'.nodes.Keys == {0, 1}
    ensures r'.nodes[1] == r.nodes[1] && r'.nodes[0].cache == map[] && r'.nodes[0].inbox == {}
    ensures exists session :: r'.nodes[0].poller == R.Observed(session, Default, s.clock, true)
  {
    var r1 := AndThen(s, r, R.TryLead(0, 0, true), st);
    var r2 := AndThen(s, r1, R.CheckAlive(0), st);
    var r3 := AndThen(s, r2, R.StartPoll(0), st);
    r' := AndThen(s, r3, R.Answer(0, true), st);
  }

  /** The observation is recorded, applied at its sender and broadcast. */
  lemma Broadcasting(s: State, r: R.State, st: Confirmation) returns (r': R.State)
    requires Leads(s, s.(replicas := r), st) && r.rows == map[] && r.notices == {} && r.nodes.Keys == {0, 1}
    requires r.nodes[1] == R.Node(R.Live, map[], {}, R.Follower)
    requires r.nodes[0].poller.Observed? && r.nodes[0].poller.service == Default
    ensures Leads(s, s.(replicas := r'), st) && r'.notices == {} && 1 in r'.nodes && Default in r'.rows
    ensures r'.nodes[1] == R.Node(R.Live, map[], {r'.rows[Default]}, R.Follower)
  {
    var r1 := AndThen(s, r, R.Record(0, true), st);
    var n := R.Notice(0, r1.rows[Default], false);
    assert r1.notices == {n};
    var r2 := AndThen(s, r1, R.ApplyLocally(n), st);
    assert r2.notices == {n.(applied := true)};
    r' := AndThen(s, r2, R.Broadcast(n.(applied := true)), st);
  }

  lemma OneOnItsWay(s: State, st: Confirmation) returns (r: R.State)
    requires s.replicas == R.INITIAL
    ensures Leads(s, s.(replicas := r), st) && r.notices == {} && 1 in r.nodes && Default in r.rows
    ensures r.nodes[1] == R.Node(R.Live, map[], {r.rows[Default]}, R.Follower)
  {
    var r1 := TwoInstances(s, st);
    var r2 := Observing(s, r1, st);
    r := Broadcasting(s, r2, st);
  }

  /** Losing one update is enough to leave a cache behind the table for as long as
      nothing else happens: reliable delivery is needed, not just assumed. */
  lemma LostUpdateIsMissed(cfg: Config)
    ensures exists ls, i :: Missed(cfg, ls, i)
  {
    var st: Confirmation := 200;
    var s := Init(cfg, 0);
    var r1 := OneOnItsWay(s, st);
    var r2 := AndThen(s, r1, R.Lose(1, r1.rows[Default]), st);
    var ls :| Via(s, ls, s.(replicas := r2), 0, st);
    assert Missed(cfg, ls, 1);
  }

  /** The last two steps deliver one update to one instance twice. */
  ghost predicate Repeats(cfg: Config, ls: seq<Label>, i: Instance, e: Availability) {
    && Legal(Init(cfg, 0), ls) && |ls| >= 2
    && ls[|ls| - 2] == Replicate(R.Deliver(i, e, true)) && ls[|ls| - 1] == Replicate(R.Deliver(i, e, false))
  }

  lemma UpdatesMayRepeat(cfg: Config)
    ensures exists ls, i, e :: Repeats(cfg, ls, i, e)
  {
    var st: Confirmation := 200;
    var s := Init(cfg, 0);
    var r := OneOnItsWay(s, st);
    var ls :| Via(s, ls, s.(replicas := r), 0, st);
    var e := r.rows[Default];
    var twice := DeliveringTwice(s.(replicas := r), e);
    RunConcat(s, ls, twice);
    assert Repeats(cfg, ls + twice, 1, e);
  }

  lemma DeliveringTwice(s: State, e: Availability) returns (ls: seq<Label>)
    requires 1 in s.replicas.nodes && e in s.replicas.nodes[1].inbox
    ensures ls == [Replicate(R.Deliver(1, e, true)), Replicate(R.Deliver(1, e, false))] && Legal(s, ls)
  {
    var first, second := Replicate(R.Deliver(1, e, true)), Replicate(R.Deliver(1, e, false));
    ls := [first, second];
    var s1 := Do(s, first);
    assert s1 == s.(replicas := R.Do(s.replicas, first.l, s.clock));
    assert Legal(Do(s1, second), []);
    assert [second][1..] == [] && ls[1..] == [second];
    assert Legal(s1, [second]);
  }
}

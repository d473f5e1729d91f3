/** The worker, dispatcher and election loops as programs. Each loop is run for as long
    as its script of environment decisions lasts, and between any two of its
    statements, as well as before each turn, every other agent of the system may take
    any number of steps. Every call a loop makes is one labelled step of the system,
    so whatever is proved of all runs holds for these programs. */
module Programs {
  import opened Domain
  import opened Tables
  import opened Routing
  import opened System
  import opened Invariants
  import opened Preservation
  import opened Safety
  import R = Replication
  import Leadership

  /** A fallible call's result. */
  datatype Result<+T> = Failure | Success(value: T)

  datatype Agent = TheWorker(w: Owner) | TheDispatcher(d: Owner) | TheLeader(i: Instance)

  /** The steps that only the agent's own loop takes. */
  predicate Mine(l: Label, me: Agent) {
    match me
    case TheWorker(w) => l.WorkerDoes? && l.w == w
    case TheDispatcher(d) => l.DispatcherDoes? && l.d == d
    case TheLeader(i) =>
      l.Replicate? &&
      (match l.l
       case Subscribe(j) => i == j
       case TryLead(j, _, _) => i == j
       case CheckAlive(j) => i == j
       case Resign(j) => i == j
       case StartPoll(j) => i == j
       case Answer(j, _) => i == j
       case Abandon(j) => i == j
       case Record(j, _) => i == j
       case _ => false)
  }

  /** The agent's loop is running. */
  predicate Present(s: State, me: Agent) {
    match me
    case TheWorker(w) => w in s.workers
    case TheDispatcher(d) => d in s.dispatchers
    case TheLeader(i) => LiveInstance(s, i)
  }

  datatype Where = AtWorker(w: Worker) | AtDispatcher(d: Dispatcher) | AtPoller(p: R.Poller)

  function Place(s: State, me: Agent): Where
    requires Present(s, me)
  {
    match me
    case TheWorker(w) => AtWorker(s.workers[w])
    case TheDispatcher(d) => AtDispatcher(s.dispatchers[d])
    case TheLeader(i) => AtPoller(s.replicas.nodes[i].poller)
  }

  function Home(s: State, me: Agent): Instance
    requires Present(s, me)
  {
    match me
    case TheWorker(w) => s.workers[w].instance
    case TheDispatcher(d) => s.dispatchers[d].instance
    case TheLeader(i) => i
  }

  // ----- What everybody else leaves alone -----

  predicate CacheGrows(cache: Cache, cache': Cache) {
    forall p | p in cache :: p in cache' && cache'[p].version >= cache[p].version
  }

  /** Steps that hand on this one notice belong to the call that committed it. */
  predicate HandsOn(l: Label, busy: Option<R.Notice>) {
    l.Replicate? && (l.l.ApplyLocally? || l.l.Broadcast? || l.l.Skip?) && busy == Some(l.l.n)
  }

  predicate Named(s: State, me: Agent) {
    match me
    case TheWorker(w) => w in s.names
    case TheDispatcher(d) => d in s.names
    case TheLeader(_) => true
  }

  /** The agent is where it was in `s0`, on an instance that forgot nothing, or it has
      stopped for good. */
  predicate Unmoved(s0: State, s: State, me: Agent)
    requires Present(s0, me)
  {
    && Named(s, me)
    && (me.TheLeader? && me.i in s.replicas.nodes ==> LiveInstance(s, me.i))
    && (Present(s, me) ==>
          && Place(s, me) == Place(s0, me)
          && var i := Home(s0, me);
             i in s0.replicas.nodes ==>
               && i in s.replicas.nodes
               && CacheGrows(s0.replicas.nodes[i].cache, s.replicas.nodes[i].cache))
  }

  predicate Owed(s0: State, s: State, busy: Option<R.Notice>) {
    busy.Some? && busy.value in s0.replicas.notices ==> busy.value in s.replicas.notices
  }

  lemma NodeGrows(r: R.State, l: R.Label, now: Time, i: Instance)
    requires R.Enabled(r, l) && i in r.nodes && i in R.Do(r, l, now).nodes
    ensures CacheGrows(r.nodes[i].cache, R.Do(r, l, now).nodes[i].cache)
  {
  }

  lemma HomeGrows(s: State, l: Label, i: Instance)
    requires Enabled(s, l) && i in s.replicas.nodes && i in Do(s, l).replicas.nodes
    ensures CacheGrows(s.replicas.nodes[i].cache, Do(s, l).replicas.nodes[i].cache)
  {
    ReplicaStep(s, l);
    var r := ReplicaLabel(s, l);
    if r.Some? {
      NodeGrows(s.replicas, r.value, s.clock, i);
    }
  }

  lemma StillThere(s: State, l: Label, w: Owner)
    requires Enabled(s, l) && w in s.names && w in Do(s, l).workers
    ensures w in s.workers
  {
    match l
    case WorkerDoes(v, step) => WorkerMovesAlone(s, v, step);
    case DispatcherDoes(d, step) => DispatcherMovesAlone(s, d, step);
    case _ =>
  }

  lemma StillDispatching(s: State, l: Label, d: Owner)
    requires Enabled(s, l) && d in s.names && d in Do(s, l).dispatchers
    ensures d in s.dispatchers
  {
    match l
    case WorkerDoes(v, step) => WorkerMovesAlone(s, v, step);
    case DispatcherDoes(e, step) => DispatcherMovesAlone(s, e, step);
    case _ =>
  }

  lemma PollerUnmoved(r: R.State, l: R.Label, now: Time, i: Instance)
    requires R.Enabled(r, l) && (l.Passive? || !Mine(Replicate(l), TheLeader(i)))
    requires i in R.Do(r, l, now).nodes
    ensures i in r.nodes && R.Do(r, l, now).nodes[i].poller == r.nodes[i].poller
    ensures r.nodes[i].phase.Live? ==> R.Do(r, l, now).nodes[i].phase.Live?
  {
  }

  lemma LeaderUnmoved(s: State, l: Label, i: Instance)
    requires Enabled(s, l) && !Mine(l, TheLeader(i)) && i in Do(s, l).replicas.nodes
    ensures i in s.replicas.nodes && Do(s, l).replicas.nodes[i].poller == s.replicas.nodes[i].poller
    ensures LiveInstance(s, i) ==> LiveInstance(Do(s, l), i)
  {
    ReplicaStep(s, l);
    var r := ReplicaLabel(s, l);
    if r.Some? {
      PollerUnmoved(s.replicas, r.value, s.clock, i);
    }
  }

  /** Somebody else's step leaves a running agent where it is. */
  lemma StepLeavesPlace(s: State, l: Label, me: Agent)
    requires Enabled(s, l) && !Mine(l, me) && AgentsOk(s) && Named(s, me) && Present(Do(s, l), me)
    requires me.TheLeader? && me.i in s.replicas.nodes ==> LiveInstance(s, me.i)
    ensures Present(s, me) && Place(Do(s, l), me) == Place(s, me)
  {
    match me
    case TheWorker(w) =>
      StillThere(s, l, w);
      OtherWorkerUnmoved(s, l, w);
    case TheDispatcher(d) =>
      StillDispatching(s, l, d);
      OtherDispatcherUnmoved(s, l, d);
    case TheLeader(i) => LeaderUnmoved(s, l, i);
  }

  lemma HomeOfPresent(s: State, me: Agent)
    requires HomesOk(s) && Present(s, me)
    ensures LiveInstance(s, Home(s, me))
  {
  }

  lemma StepUnmoved(s0: State, s: State, l: Label, me: Agent)
    requires Present(s0, me) && Unmoved(s0, s, me)
    requires Enabled(s, l) && !Mine(l, me) && AgentsOk(s) && HomesOk(s) && HomesOk(Do(s, l))
    requires s.names <= Do(s, l).names
    ensures Unmoved(s0, Do(s, l), me)
  {
    var s' := Do(s, l);
    if Present(s', me) {
      StepLeavesPlace(s, l, me);
      StepGrowsHome(s, l, me);
    } else if me.TheLeader? && me.i in s'.replicas.nodes {
      LeaderUnmoved(s, l, me.i);
    }
  }

  lemma StepGrowsHome(s: State, l: Label, me: Agent)
    requires Enabled(s, l) && HomesOk(s) && HomesOk(Do(s, l)) && Present(s, me) && Present(Do(s, l), me)
    requires Place(Do(s, l), me) == Place(s, me)
    ensures var i := Home(s, me);
            && i in s.replicas.nodes && i in Do(s, l).replicas.nodes
            && CacheGrows(s.replicas.nodes[i].cache, Do(s, l).replicas.nodes[i].cache)
  {
    HomeOfPresent(Do(s, l), me);
    HomeOfPresent(s, me);
    HomeGrows(s, l, Home(s, me));
  }

  lemma StepOwed(s0: State, s: State, l: Label, busy: Option<R.Notice>)
    requires Enabled(s, l) && !HandsOn(l, busy) && Owed(s0, s, busy)
    ensures Owed(s0, Do(s, l), busy)
  {
    ReplicaStep(s, l);
    var r := ReplicaLabel(s, l);
    if r.Some? && busy.Some? && busy.value in s.replicas.notices {
      NoticeStays(s.replicas, r.value, s.clock, busy.value);
    }
  }

  /** What everybody else does, given what they are willing to do. */
  function Doings(s: State, ls: seq<Label>, me: Agent, busy: Option<R.Notice>): seq<Label>
    decreases ls
  {
    if ls == [] then []
    else if Enabled(s, ls[0]) && !Mine(ls[0], me) && !HandsOn(ls[0], busy) then
      [ls[0]] + Doings(Do(s, ls[0]), ls[1..], me, busy)
    else Doings(s, ls[1..], me, busy)
  }

  lemma NoticeStays(r: R.State, l: R.Label, now: Time, n: R.Notice)
    requires R.Enabled(r, l) && n in r.notices && !((l.ApplyLocally? || l.Broadcast? || l.Skip?) && l.n == n)
    ensures n in R.Do(r, l, now).notices
  {
  }

  // ----- Runs in progress -----

  /** `s` is where the run `trace` leads from a fresh system. */
  ghost predicate ReachedBy(origin: State, trace: seq<Label>, s: State) {
    origin == Init(origin.cfg, origin.clock) && Legal(origin, trace) && Run(origin, trace) == s
  }

  lemma ReachedMeansInv(origin: State, trace: seq<Label>, s: State)
    requires ReachedBy(origin, trace, s)
    ensures Inv(s)
  {
    Reached(origin.cfg, origin.clock, trace);
  }

  lemma OneMore(origin: State, trace: seq<Label>, s: State, l: Label)
    requires Legal(origin, trace) && Run(origin, trace) == s && Enabled(s, l)
    ensures Legal(origin, trace + [l]) && Run(origin, trace + [l]) == Do(s, l)
  {
    SingleStep(s, l);
    RunConcat(origin, trace, [l]);
  }

  lemma SoundStep(origin: State, trace: seq<Label>, s: State, l: Label)
    requires ReachedBy(origin, trace, s) && Enabled(s, l)
    ensures ReachedBy(origin, trace + [l], Do(s, l)) && Inv(s) && Inv(Do(s, l)) && Extends(s, Do(s, l))
  {
    OneMore(origin, trace, s, l);
    ReachedMeansInv(origin, trace, s);
    InvHolds(s, l);
  }

  /** What an earlier moment of a run established still holds later. */
  lemma EarlierExtends(origin: State, trace: seq<Label>, s: State, trace': seq<Label>, s': State)
    requires ReachedBy(origin, trace, s) && ReachedBy(origin, trace', s') && trace <= trace'
    ensures Extends(s, s')
  {
    assert StateAt(origin, trace', |trace|) == s by {
      assert trace'[..|trace|] == trace;
    }
    LaterExtends(origin.cfg, origin.clock, trace', |trace|);
  }

  /** When a call of the program was made: its place in the run, and the states just
      before and just after it. */
  datatype Moment = Moment(at: nat, state: State, after: State)

  ghost predicate Happened(origin: State, trace: seq<Label>, m: Moment, l: Label) {
    && Legal(origin, trace) && m.at < |trace|
    && trace[m.at] == l && StateAt(origin, trace, m.at) == m.state && StateAt(origin, trace, m.at + 1) == m.after
  }

  /** Where in the run a turn began, and the state then. */
  datatype Start = Start(at: nat, state: State)

  ghost predicate Stood(origin: State, trace: seq<Label>, from: nat, start: Start) {
    && Legal(origin, trace) && from <= start.at <= |trace|
    && StateAt(origin, trace, start.at) == start.state
  }

  lemma StandsNow(origin: State, trace: seq<Label>, s: State, from: nat)
    requires ReachedBy(origin, trace, s) && from <= |trace|
    ensures Stood(origin, trace, from, Start(|trace|, s))
  {
    StateAtEnd(origin, trace);
  }

  lemma StoodLasts(origin: State, trace: seq<Label>, trace': seq<Label>, s': State, from: nat, start: Start)
    requires Stood(origin, trace, from, start) && trace <= trace' && ReachedBy(origin, trace', s')
    ensures Stood(origin, trace', from, start)
  {
    assert trace'[..start.at] == trace[..start.at];
  }

  predicate Earlier(m: Moment, m': Moment) {
    m.at < m'.at
  }

  /** The calls are steps of the run, in order, and each moment says which. */
  ghost predicate Recorded(origin: State, trace: seq<Label>, calls: seq<Label>, moments: seq<Moment>) {
    && |moments| == |calls|
    && (forall k {:trigger Happened(origin, trace, moments[k], calls[k])} | 0 <= k < |calls| ::
          Happened(origin, trace, moments[k], calls[k]))
    && (forall j, k {:trigger Earlier(moments[j], moments[k])} | 0 <= j < k < |moments| ::
          Earlier(moments[j], moments[k]))
  }

  lemma StillHappened(origin: State, trace: seq<Label>, l': Label, m: Moment, l: Label)
    requires Happened(origin, trace, m, l) && Legal(origin, trace + [l'])
    ensures Happened(origin, trace + [l'], m, l)
  {
    assert (trace + [l'])[..m.at] == trace[..m.at];
    assert (trace + [l'])[..m.at + 1] == trace[..m.at + 1];
  }

  lemma StillRecorded(origin: State, trace: seq<Label>, l: Label, calls: seq<Label>, moments: seq<Moment>)
    requires Recorded(origin, trace, calls, moments) && Legal(origin, trace + [l])
    ensures Recorded(origin, trace + [l], calls, moments)
  {
    forall k | 0 <= k < |calls|
      ensures Happened(origin, trace + [l], moments[k], calls[k])
    {
      StillHappened(origin, trace, l, moments[k], calls[k]);
    }
  }

  lemma CallRecorded(origin: State, trace: seq<Label>, s: State, l: Label, calls: seq<Label>, moments: seq<Moment>)
    requires ReachedBy(origin, trace, s) && Enabled(s, l)
    requires Recorded(origin, trace, calls, moments) && Legal(origin, trace + [l])
    ensures Recorded(origin, trace + [l], calls + [l], moments + [Moment(|trace|, s, Do(s, l))])
  {
    StillRecorded(origin, trace, l, calls, moments);
    assert (trace + [l])[..|trace|] == trace;
    StateAtEnd(origin, trace + [l]);
    OneMore(origin, trace, s, l);
    assert Happened(origin, trace + [l], Moment(|trace|, s, Do(s, l)), l);
    var moments' := moments + [Moment(|trace|, s, Do(s, l))];
    forall k | 0 <= k < |calls + [l]|
      ensures Happened(origin, trace + [l], moments'[k], (calls + [l])[k])
    {
      if k < |calls| {
        assert Happened(origin, trace + [l], moments[k], calls[k]);
      }
    }
    forall j, k | 0 <= j < k < |moments'|
      ensures Earlier(moments'[j], moments'[k])
    {
      assert Happened(origin, trace, moments[j], calls[j]);
      if k < |moments| {
        assert Earlier(moments[j], moments[k]);
      }
    }
  }

  lemma RunAdvances(origin: State, trace: seq<Label>, s: State, l: Label, calls: seq<Label>, moments: seq<Moment>)
    requires ReachedBy(origin, trace, s) && Recorded(origin, trace, calls, moments) && Enabled(s, l)
    ensures ReachedBy(origin, trace + [l], Do(s, l)) && Recorded(origin, trace + [l], calls, moments)
  {
    SoundStep(origin, trace, s, l);
    StillRecorded(origin, trace, l, calls, moments);
  }

  lemma CallAdvances(origin: State, trace: seq<Label>, s: State, l: Label, calls: seq<Label>, moments: seq<Moment>)
    requires ReachedBy(origin, trace, s) && Recorded(origin, trace, calls, moments) && Enabled(s, l)
    ensures ReachedBy(origin, trace + [l], Do(s, l))
    ensures Recorded(origin, trace + [l], calls + [l], moments + [Moment(|trace|, s, Do(s, l))])
  {
    SoundStep(origin, trace, s, l);
    CallRecorded(origin, trace, s, l, calls, moments);
  }

  /** Of the calls from the n-th on, at most one recorded an observation under a session
      that had ended by then. */
  ghost predicate AtMostOneStale(calls: seq<Label>, moments: seq<Moment>, n: nat)
    requires |calls| == |moments|
  {
    forall j, k, session | n <= j < k < |calls| ::
      !(StaleRecord(moments[j].state, calls[j], session) && StaleRecord(moments[k].state, calls[k], session))
  }

  lemma CallsAreStaleAtMostOnce(origin: State, trace: seq<Label>, s: State, calls: seq<Label>, moments: seq<Moment>,
                                n: nat)
    requires ReachedBy(origin, trace, s) && Recorded(origin, trace, calls, moments)
    ensures AtMostOneStale(calls, moments, n)
  {
    forall j, k, session | n <= j < k < |calls|
      ensures !(StaleRecord(moments[j].state, calls[j], session) && StaleRecord(moments[k].state, calls[k], session))
    {
      assert Happened(origin, trace, moments[j], calls[j]) && Happened(origin, trace, moments[k], calls[k]);
      assert Earlier(moments[j], moments[k]);
      OneStaleRecord(origin.cfg, origin.clock, trace, moments[j].at, moments[k].at, session);
    }
  }

  // ----- What calls do to the table of availability -----

  predicate LeavesTable(m: Moment) {
    m.after.replicas.rows == m.state.replicas.rows
  }

  /** The call wrote what the upsert makes of this observation. */
  ghost predicate WritesPoll(m: Moment, service: Processor, available: bool, startedAt: Time) {
    PollWritten(m.state.replicas.rows, m.after.replicas.rows, service, available, startedAt)
  }

  /** The statement would find this row free to claim. */
  predicate Claimable(s: State, row: Option<Uuid>) {
    row.Some? && row.value in s.outbox && Dispatchable(s.outbox[row.value], s.clock)
  }

  /** The own cache has this row or a newer one. */
  predicate Knows(s: State, i: Instance, row: Availability) {
    && i in s.replicas.nodes && row.service in s.replicas.nodes[i].cache
    && s.replicas.nodes[i].cache[row.service].version >= row.version
  }

  /** The row is in every instance's inbox. */
  predicate OnItsWay(s: State, row: Availability) {
    forall j | j in s.replicas.nodes :: row in s.replicas.nodes[j].inbox
  }

  function ReportedRow(s: State, w: Owner): Availability
    requires w in s.workers && s.workers[w].pc.Failing?
  {
    PassiveRow(s.replicas.rows, s.workers[w].pc.claim.payment.assignment, s.clock)
  }

  function ReplyAt(s: State, w: Owner): PaymentClaim
    requires HasSelected(s, w)
  {
    ClaimReply(s.payments, s.workers[w].pc.d.id, s.clock, s.workers[w].pc.selected)
  }

  /** The worker's completion would be applied. */
  predicate WouldComplete(s: State, w: Owner) {
    && w in s.workers && s.workers[w].pc.Confirmed?
    && var p := s.workers[w].pc.claim.payment;
       Completes(s.payments, p.id, w, p.assignment)
  }

  /** The processes' shared surroundings: the system and how it got here. */
  class Cluster {
    var s: State
    ghost var origin: State
    ghost var trace: seq<Label>
    /** The steps the program under scrutiny took itself, in order, and when. */
    ghost var calls: seq<Label>
    ghost var moments: seq<Moment>

    ghost predicate Valid()
      reads this
    {
      ReachedBy(origin, trace, s) && Recorded(origin, trace, calls, moments)
    }

    /** Steps were added to the run. */
    twostate predicate Continued()
      reads this
    {
      && Valid() && origin == old(origin) && old(trace) <= trace
      && old(calls) <= calls && old(moments) <= moments
    }

    /** Only others took steps. */
    twostate predicate Silent()
      reads this
    {
      Continued() && calls == old(calls) && moments == old(moments)
    }

    /** The program took exactly this step, and then nobody took any. */
    twostate predicate Made(l: Label)
      reads this
    {
      && Continued() && calls == old(calls) + [l] && trace == old(trace) + [l]
      && moments == old(moments) + [Moment(|old(trace)|, old(s), s)]
    }

    constructor (cfg: Config, clock: Time)
      ensures Valid() && s == Init(cfg, clock) && origin == s && trace == [] && calls == [] && moments == []
    {
      s := Init(cfg, clock);
      origin := Init(cfg, clock);
      trace, calls, moments := [], [], [];
    }

    method Step(l: Label)
      requires Valid() && Enabled(s, l)
      modifies this
      ensures Silent() && s == Do(old(s), l) && trace == old(trace) + [l]
    {
      RunAdvances(origin, trace, s, l, calls, moments);
      trace := trace + [l];
      s := Do(s, l);
    }

    /** A step of the program itself. */
    method Call(l: Label)
      requires Valid() && Enabled(s, l)
      modifies this
      ensures Made(l) && s == Do(old(s), l)
    {
      CallAdvances(origin, trace, s, l, calls, moments);
      calls, moments := calls + [l], moments + [Moment(|trace|, s, Do(s, l))];
      trace := trace + [l];
      s := Do(s, l);
    }

    /** A step of the availability machine alone. */
    method Availability(l: R.Label)
      requires Valid() && R.Enabled(s.replicas, l) && !l.Passive? && !l.Stop?
      modifies this
      ensures Silent() && trace == old(trace) + [Replicate(l)]
      ensures s == old(s).(replicas := R.Do(old(s.replicas), l, old(s.clock)))
    {
      Step(Replicate(l));
    }

    method Ask(l: R.Label)
      requires Valid() && R.Enabled(s.replicas, l) && !l.Passive? && !l.Stop?
      modifies this
      ensures Made(Replicate(l))
      ensures s == old(s).(replicas := R.Do(old(s.replicas), l, old(s.clock)))
    {
      Call(Replicate(l));
    }

    /** Somebody else's step, if it is possible, is not `me`'s own and does not hand on
        the notice `me` is busy with. */
    method Allow(l: Label, me: Agent, busy: Option<R.Notice>, ghost start: State)
      requires Valid() && Present(start, me) && Unmoved(start, s, me) && Owed(start, s, busy)
      modifies this
      ensures Silent() && Unmoved(start, s, me) && Owed(start, s, busy)
      ensures if Enabled(old(s), l) && !Mine(l, me) && !HandsOn(l, busy)
              then s == Do(old(s), l) && trace == old(trace) + [l] else s == old(s) && trace == old(trace)
    {
      if Enabled(s, l) && !Mine(l, me) && !HandsOn(l, busy) {
        SoundStep(origin, trace, s, l);
        StepUnmoved(start, s, l, me);
        StepOwed(start, s, l, busy);
        Step(l);
      }
    }

    method Proceed(ls: seq<Label>, me: Agent, busy: Option<R.Notice>, ghost start: State)
      requires Valid() && Present(start, me) && Unmoved(start, s, me) && Owed(start, s, busy)
      modifies this
      ensures Silent() && Unmoved(start, s, me) && Owed(start, s, busy)
      ensures trace == old(trace) + Doings(old(s), ls, me, busy)
      decreases ls
    {
      if ls == [] {
        return;
      }
      Allow(ls[0], me, busy, start);
      Proceed(ls[1..], me, busy, start);
    }

    /** Everybody else runs: those steps of `ls` that are possible, are not `me`'s own
        and do not hand on the notice `me` is busy with. */
    method Others(ls: seq<Label>, me: Agent, busy: Option<R.Notice>)
      requires Valid() && Present(s, me)
      modifies this
      ensures Silent() && trace == old(trace) + Doings(old(s), ls, me, busy)
      ensures Present(s, me) ==>
                && Place(s, me) == Place(old(s), me)
                && LiveInstance(old(s), Home(old(s), me)) && LiveInstance(s, Home(s, me))
                && CacheGrows(old(s).replicas.nodes[Home(s, me)].cache, s.replicas.nodes[Home(s, me)].cache)
      ensures Owed(old(s), s, busy)
    {
      ghost var start := s;
      ReachedMeansInv(origin, trace, s);
      HomeOfPresent(s, me);
      Proceed(ls, me, busy, start);
      ReachedMeansInv(origin, trace, s);
      if Present(s, me) {
        HomeOfPresent(s, me);
      }
    }

    // ----- What a worker calls -----

    /** The next message, or an error or timeout, which is no step at all. */
    method Next(w: Owner, sequence: Option<Seq>) returns (delivery: Result<Delivery>)
      requires Valid() && w in s.workers && s.workers[w].pc.Idle?
      modifies this
      ensures Continued() && w in s.workers
      ensures delivery == if sequence.Some? && sequence.value in old(s.stream.messages)
                          then Success(Delivery(sequence.value, old(s.stream.messages)[sequence.value])) else Failure
      ensures delivery.Success? ==>
                Made(WorkerDoes(w, Fetch(sequence.value))) && s.workers[w].pc == Fetched(delivery.value)
      ensures delivery.Failure? ==> Silent() && s == old(s) && trace == old(trace)
    {
      if sequence.Some? && sequence.value in s.stream.messages {
        Call(WorkerDoes(w, Fetch(sequence.value)));
        return Success(s.workers[w].pc.d);
      }
      return Failure;
    }

    method SelectProcessor(w: Owner) returns (selected: Option<Processor>)
      requires Valid() && w in s.workers && s.workers[w].pc.Fetched?
      modifies this
      ensures Made(WorkerDoes(w, Select)) && w in s.workers
      ensures LiveInstance(old(s), old(s.workers[w].instance))
      ensures var view := old(s).replicas.nodes[old(s.workers[w].instance)].cache;
              && selected == SelectFrom(view)
              && s.workers[w].pc == Selected(old(s.workers[w].pc.d), selected, view)
    {
      HomeIsLive(origin, trace, s, w);
      Call(WorkerDoes(w, Select));
      return s.workers[w].pc.selected;
    }

    method ClaimPayment(w: Owner, outcome: CallOutcome) returns (claim: Result<PaymentClaim>)
      requires Valid() && HasSelected(s, w)
      modifies this
      ensures Made(WorkerDoes(w, ClaimIt(outcome))) && w in s.workers
      ensures claim == if outcome.Replied? then Success(ReplyAt(old(s), w)) else Failure
      ensures s.payments == if outcome.LostUnapplied? then old(s.payments)
                            else old(ClaimedPayments(s.payments, s.workers[w].pc.d.id, w, s.clock, s.cfg.claimExpiry,
                                                     s.workers[w].pc.selected))
      ensures !outcome.LostUnapplied? ==>
                PaymentLeased(old(s.payments), s.payments, old(s.workers[w].pc.d.id), w, old(s.clock),
                              old(s.cfg.claimExpiry), old(s.workers[w].pc.selected))
      ensures var d := old(s.workers[w].pc.d);
              match claim
              case Failure => s.workers[w].pc == Naking(d)
              case Success(PaymentClaimed(p)) =>
                s.workers[w].pc.Claimed? && s.workers[w].pc.d == d && s.workers[w].pc.claim.payment == p
              case Success(PaymentCompleted) => s.workers[w].pc == Acking(d)
              case Success(_) => s.workers[w].pc == Naking(d)
    {
      var reply := ReplyAt(s, w);
      ghost var before := s;
      Call(WorkerDoes(w, ClaimIt(outcome)));
      assert s == ClaimDo(before, w, outcome);
      return if outcome.Replied? then Success(reply) else Failure;
    }

    /** Submits the claimed payment. While the request is open everybody else runs; a
        processor that answers 200 or 422 has recorded the payment by then. None when
        the worker was stopped meanwhile. */
    method Process(w: Owner, answer: HttpOutcome, meanwhile: seq<Label>) returns (result: Option<ProcessResult>)
      requires Valid() && w in s.workers && s.workers[w].pc.Claimed?
      modifies this
      ensures Continued() && (result.None? <==> w !in s.workers)
      ensures result.Some? ==>
                && result.value == Classify(answer)
                && s.workers[w].pc == Heard(old(s.workers[w].pc), answer)
                && calls == old(calls) + [WorkerDoes(w, Submit), WorkerDoes(w, Hear(answer))]
      ensures result.Some? ==>
                && (s.workers[w].pc.Confirmed? <==> answer == Response(200) || answer == Response(422))
                && (s.workers[w].pc.Failing? <==>
                    answer.TimedOut? || (answer.Response? && 500 <= answer.status <= 599))
                && (s.workers[w].pc.Confirmed? || s.workers[w].pc.Failing? || s.workers[w].pc.Releasing?)
                && (s.workers[w].pc.Confirmed? <==> result.value == ProcessConfirmed)
                && (s.workers[w].pc.Failing? <==> result.value == ProcessUnavailable)
      ensures result == Some(ProcessConfirmed) ==>
                var p := old(s.workers[w].pc.claim.payment); p.id in s.books.Of(p.assignment).recorded
    {
      Call(WorkerDoes(w, Submit));
      Others(meanwhile, TheWorker(w), None);
      if w !in s.workers {
        return None;
      }
      HearAnswer(w, answer);
      return Some(Classify(answer));
    }

    method HearAnswer(w: Owner, answer: HttpOutcome)
      requires Valid() && w in s.workers && s.workers[w].pc.Submitting?
      modifies this
      ensures Continued() && calls == old(calls) + [WorkerDoes(w, Hear(answer))]
      ensures w in s.workers && s.workers[w].pc == Heard(old(s.workers[w].pc), answer)
      ensures s.workers[w].pc.Confirmed? <==> answer == Response(200) || answer == Response(422)
      ensures s.workers[w].pc.Failing? <==> answer.TimedOut? || (answer.Response? && 500 <= answer.status <= 599)
      ensures s.workers[w].pc.Confirmed? || s.workers[w].pc.Failing? || s.workers[w].pc.Releasing?
      ensures s.workers[w].pc.Confirmed? ==>
                var p := old(s.workers[w].pc.claim.payment); p.id in s.books.Of(p.assignment).recorded
    {
      if !AnswerPossible(s, s.workers[w].pc.claim, answer) {
        ArriveAtProcessor(w);
      }
      Call(WorkerDoes(w, Hear(answer)));
    }

    /** The submission reaches the processor's books at the latest now. */
    method ArriveAtProcessor(w: Owner)
      requires Valid() && w in s.workers && s.workers[w].pc.Submitting?
      modifies this
      ensures Silent() && s == old(s).(books := s.books)
      ensures var p := s.workers[w].pc.claim.payment; p.id in s.books.Of(p.assignment).recorded
    {
      RecordedNow(origin, trace, s, w);
      var p := s.workers[w].pc.claim.payment;
      ghost var before := s;
      Step(Record(p.assignment, p.id));
      assert s == RecordDo(before, p.assignment, p.id);
    }

    /** The store's part of a passive failure. */
    method CommitPassiveFailure(w: Owner, outcome: CallOutcome)
      requires Valid() && w in s.workers && s.workers[w].pc.Failing?
      modifies this
      ensures Made(WorkerDoes(w, ReportFailure(outcome)))
      ensures w in s.workers && s.workers[w].instance == old(s.workers[w].instance)
      ensures s.workers[w].pc == Releasing(old(s.workers[w].pc.d), old(s.workers[w].pc.claim))
      ensures s.replicas.rows == if outcome.LostUnapplied? then old(s.replicas.rows)
                                 else old(s.replicas.rows[ReportedRow(s, w).service := ReportedRow(s, w)])
      ensures !outcome.LostUnapplied? ==>
                FailureWritten(old(s.replicas.rows), s.replicas.rows, old(s.workers[w].pc.claim.payment.assignment),
                               old(s.clock))
      ensures outcome.Replied? ==>
                R.Notice(s.workers[w].instance, ReportedRow(old(s), w), false) in s.replicas.notices
    {
      HomeIsLive(origin, trace, s, w);
      Call(WorkerDoes(w, ReportFailure(outcome)));
    }

    /** Commits the failure; once committed, and if its row came back, the instance
        applies the row to its own cache and then broadcasts it or fails to. */
    method RecordPassiveFailure(w: Owner, outcome: CallOutcome, sent: bool, before: seq<Label>,
                                between: seq<Label>)
      requires Valid() && w in s.workers && s.workers[w].pc.Failing?
      modifies this
      ensures Continued() && calls == old(calls) + [WorkerDoes(w, ReportFailure(outcome))]
      ensures moments[|old(calls)|].state == old(s)
      ensures w in s.workers ==>
                && s.workers[w].pc == Releasing(old(s.workers[w].pc.d), old(s.workers[w].pc.claim))
                && (outcome.Replied? ==>
                      && Knows(s, s.workers[w].instance, ReportedRow(old(s), w))
                      && (sent ==> OnItsWay(s, ReportedRow(old(s), w))))
    {
      var row := ReportedRow(s, w);
      CommitPassiveFailure(w, outcome);
      if outcome.Replied? {
        ghost var applied, published := Announce(TheWorker(w), row, sent, before, between);
      }
    }

    /** Hands on a committed row: it is applied to the agent's own cache, and only then
        broadcast to every inbox, or skipped. Others may run before and between. */
    method Announce(me: Agent, row: Domain.Availability, sent: bool, before: seq<Label>, between: seq<Label>)
      returns (ghost applied: nat, ghost published: nat)
      requires Valid() && Present(s, me) && R.Notice(Home(s, me), row, false) in s.replicas.notices
      modifies this
      ensures Silent()
      ensures Present(s, me) ==>
                && Place(s, me) == Place(old(s), me)
                && var i := Home(s, me);
                   && |old(trace)| <= applied < published == |trace| - 1
                   && trace[applied] == Replicate(R.ApplyLocally(R.Notice(i, row, false)))
                   && trace[published] == Replicate(Publication(R.Notice(i, row, true), sent))
                   && Knows(s, i, row)
                   && (sent ==> OnItsWay(s, row))
    {
      applied, published := 0, 0;
      var i := Home(s, me);
      Others(before, me, Some(R.Notice(i, row, false)));
      if !Present(s, me) {
        return;
      }
      applied := |trace|;
      ApplyOwn(me, row);
      Others(between, me, Some(R.Notice(i, row, true)));
      if !Present(s, me) {
        return;
      }
      published := |trace|;
      Publicise(i, row, sent);
    }

    method ApplyOwn(me: Agent, row: Domain.Availability)
      requires Valid() && Present(s, me) && R.Notice(Home(s, me), row, false) in s.replicas.notices
      modifies this
      ensures Silent() && Present(s, me) && Place(s, me) == Place(old(s), me)
      ensures trace == old(trace) + [Replicate(R.ApplyLocally(R.Notice(Home(s, me), row, false)))]
      ensures R.Notice(Home(s, me), row, true) in s.replicas.notices
      ensures LiveInstance(old(s), Home(old(s), me)) && Knows(s, Home(s, me), row)
      ensures s.replicas.nodes[Home(s, me)].cache == ApplyOne(old(s).replicas.nodes[Home(old(s), me)].cache, row)
    {
      ReachedMeansInv(origin, trace, s);
      HomeOfPresent(s, me);
      var n := R.Notice(Home(s, me), row, false);
      assert R.Genuine(s.replicas.history, n.state);
      Availability(R.ApplyLocally(n));
    }

    method Publicise(i: Instance, row: Domain.Availability, sent: bool)
      requires Valid() && i in s.replicas.nodes && R.Notice(i, row, true) in s.replicas.notices
      modifies this
      ensures Silent() && trace == old(trace) + [Replicate(Publication(R.Notice(i, row, true), sent))]
      ensures s == old(s).(replicas := s.replicas)
      ensures s.replicas.nodes.Keys == old(s.replicas.nodes.Keys)
      ensures forall j | j in s.replicas.nodes ::
                s.replicas.nodes[j] == old(s).replicas.nodes[j].(inbox := s.replicas.nodes[j].inbox)
                && s.replicas.nodes[j].inbox == old(s).replicas.nodes[j].inbox + if sent then {row} else {}
    {
      Availability(Publication(R.Notice(i, row, true), sent));
    }

    method ReleasePayment(w: Owner, applied: bool)
      requires Valid() && w in s.workers && s.workers[w].pc.Releasing?
      modifies this
      ensures Made(WorkerDoes(w, Release(applied)))
      ensures w in s.workers && s.workers[w].pc == Naking(old(s.workers[w].pc.d))
      ensures s.payments == if applied then old(ReleasedPayments(s.payments, s.workers[w].pc.d.id, w))
                            else old(s.payments)
      ensures applied ==> PaymentFreed(old(s.payments), s.payments, old(s.workers[w].pc.d.id), w)
    {
      Call(WorkerDoes(w, Release(applied)));
    }

    /** True exactly when this call completed the payment and its caller was told. */
    method CompletePayment(w: Owner, outcome: CallOutcome) returns (completed: Result<bool>)
      requires Valid() && w in s.workers && s.workers[w].pc.Confirmed?
      modifies this
      ensures Made(WorkerDoes(w, Complete(outcome))) && w in s.workers
      ensures completed == if outcome.Replied? then Success(WouldComplete(old(s), w)) else Failure
      ensures s.workers[w].pc ==
              if completed == Success(true) then Acking(old(s.workers[w].pc.d)) else Naking(old(s.workers[w].pc.d))
      ensures s.payments == if outcome.LostUnapplied? then old(s.payments)
                            else old(var p := s.workers[w].pc.claim.payment;
                                     CompletedPayments(s.payments, p.id, w, s.workers[w].instance, p.assignment,
                                                       s.clock))
      ensures !outcome.LostUnapplied? ==>
                var p := old(s.workers[w].pc.claim.payment);
                PaymentFinished(old(s.payments), s.payments, p.id, w, old(s.workers[w].instance), p.assignment,
                                old(s.clock))
    {
      ghost var before := s;
      Call(WorkerDoes(w, Complete(outcome)));
      assert s == CompleteDo(before, w, outcome);
      return if outcome.Replied? then Success(s.workers[w].pc.Acking?) else Failure;
    }

    /** An acknowledgement is sent only for a payment whose completion is durable. */
    method Ack(w: Owner, applied: bool)
      requires Valid() && w in s.workers && s.workers[w].pc.Acking?
      modifies this
      ensures Made(WorkerDoes(w, System.WorkerStep.Ack(applied)))
      ensures w in s.workers && s.workers[w].pc.Idle?
      ensures IsCompleted(s, old(s.workers[w].pc.d.id))
      ensures s.stream.messages == if applied then old(s.stream.messages - {s.workers[w].pc.d.sequence})
                                   else old(s.stream.messages)
    {
      AckedIsCompleted(origin, trace, s, w);
      Call(WorkerDoes(w, System.WorkerStep.Ack(applied)));
    }

    method Nak(w: Owner)
      requires Valid() && w in s.workers && s.workers[w].pc.Naking?
      modifies this
      ensures Made(WorkerDoes(w, System.WorkerStep.Nak))
      ensures w in s.workers && s.workers[w].pc.Idle?
      ensures s.stream == old(s.stream) && s.payments == old(s.payments)
    {
      Call(WorkerDoes(w, System.WorkerStep.Nak));
    }

    method ReleaseAndNak(w: Owner, applied: bool, meanwhile: seq<Label>)
      requires Valid() && w in s.workers && s.workers[w].pc.Releasing?
      modifies this
      ensures Continued() && (w in s.workers ==> s.workers[w].pc.Idle?)
      ensures w in s.workers ==>
                calls == old(calls) + [WorkerDoes(w, Release(applied)), WorkerDoes(w, System.WorkerStep.Nak)]
    {
      ReleasePayment(w, applied);
      Others(meanwhile, TheWorker(w), None);
      if w !in s.workers {
        return;
      }
      Nak(w);
    }

    // ----- What a dispatcher calls -----

    /** Any row whose claim is free may be offered: other transactions' locks decide. */
    method ClaimOutbox(d: Owner, row: Option<Uuid>, replied: bool) returns (claimed: Result<Option<Uuid>>)
      requires Valid() && d in s.dispatchers && s.dispatchers[d].pc.Seeking?
      modifies this
      ensures Continued() && d in s.dispatchers
      ensures claimed == if !replied then Failure else if old(Claimable(s, row)) then Success(row) else Success(None)
      ensures s.dispatchers[d].pc ==
              if claimed.Success? && claimed.value.Some? then Publishing(claimed.value.value) else Seeking
      ensures s.outbox == if old(Claimable(s, row))
                          then old(ClaimedOutbox(s.outbox, row.value, d, s.clock, s.cfg.outboxExpiry))
                          else old(s.outbox)
      ensures old(Claimable(s, row)) ==>
                RowLeased(old(s.outbox), s.outbox, row.value, d, old(s.clock), old(s.cfg.outboxExpiry))
      ensures if old(Claimable(s, row)) then Made(DispatcherDoes(d, ClaimRow(row.value, replied)))
              else Silent() && s == old(s)
    {
      if !Claimable(s, row) {
        return if replied then Success(None) else Failure;
      }
      Call(DispatcherDoes(d, ClaimRow(row.value, replied)));
      return if replied then Success(row) else Failure;
    }

    /** An acknowledged publication was stored, or is known to have been stored before. */
    method Publish(d: Owner, stored: bool, acked: bool) returns (ok: bool)
      requires Valid() && d in s.dispatchers && s.dispatchers[d].pc.Publishing?
      modifies this
      ensures Made(DispatcherDoes(d, System.DispatcherStep.Publish(stored, ok))) && d in s.dispatchers
      ensures ok <==> PubAcked(old(s), d, stored, acked)
      ensures s.dispatchers[d].pc ==
              if ok then Marking(old(s.dispatchers[d].pc.id)) else Unclaiming(old(s.dispatchers[d].pc.id))
      ensures s.stream == if stored then old(Stored(s.stream, s.dispatchers[d].pc.id)) else old(s.stream)
      ensures stored ==>
                s.stream.messages == old(s.stream.messages[s.stream.last + 1 := s.dispatchers[d].pc.id])
      ensures ok ==> old(s.dispatchers[d].pc.id) in s.stream.stored
    {
      ok := PubAcked(s, d, stored, acked);
      Call(DispatcherDoes(d, System.DispatcherStep.Publish(stored, ok)));
    }

    method MarkOutboxDispatched(d: Owner, applied: bool)
      requires Valid() && d in s.dispatchers && s.dispatchers[d].pc.Marking?
      modifies this
      ensures Made(DispatcherDoes(d, Mark(applied))) && d in s.dispatchers && s.dispatchers[d].pc.Seeking?
      ensures s.outbox == if applied then old(MarkedOutbox(s.outbox, s.dispatchers[d].pc.id, d, s.clock))
                          else old(s.outbox)
      ensures applied ==> RowDispatched(old(s.outbox), s.outbox, old(s.dispatchers[d].pc.id), d, old(s.clock))
    {
      Call(DispatcherDoes(d, Mark(applied)));
    }

    method ReleaseOutbox(d: Owner, applied: bool)
      requires Valid() && d in s.dispatchers && s.dispatchers[d].pc.Unclaiming?
      modifies this
      ensures Made(DispatcherDoes(d, Unclaim(applied))) && d in s.dispatchers && s.dispatchers[d].pc.Seeking?
      ensures s.outbox == if applied then old(ReleasedOutbox(s.outbox, s.dispatchers[d].pc.id, d))
                          else old(s.outbox)
      ensures applied ==> RowFreed(old(s.outbox), s.outbox, old(s.dispatchers[d].pc.id), d)
    {
      Call(DispatcherDoes(d, Unclaim(applied)));
    }

    // ----- What an election calls -----

    /** Tries the lock on a session of its own. A reply that is lost may leave the lock
        taken by a session that nobody leads under, until that session ends. */
    method TryHealthLeadership(i: Instance, session: R.Session, outcome: CallOutcome) returns (acquired: bool)
      requires Valid() && LiveInstance(s, i) && s.replicas.nodes[i].poller.Follower?
      modifies this
      ensures Continued() && LiveInstance(s, i)
      ensures acquired <==> Opens(old(s), session, outcome) && old(s.replicas.holders) == {} && outcome.Replied?
      ensures s.replicas.nodes[i].poller == if acquired then R.Checking(session, Default) else R.Follower
      ensures s.replicas.holders == if Opens(old(s), session, outcome) && old(s.replicas.holders) == {} then {session}
                                    else old(s.replicas.holders)
      ensures if Opens(old(s), session, outcome) then Made(Replicate(R.TryLead(i, session, outcome.Replied?)))
              else Silent() && s == old(s)
    {
      if !Opens(s, session, outcome) {
        return false;
      }
      acquired := s.replicas.holders == {} && outcome.Replied?;
      Ask(R.TryLead(i, session, outcome.Replied?));
    }

    /** `spurious` is a failed check on a session that may well be alive. */
    method HasLeadership(i: Instance, spurious: bool) returns (ok: bool)
      requires Valid() && LiveInstance(s, i) && s.replicas.nodes[i].poller.Checking?
      modifies this
      ensures Continued() && LiveInstance(s, i)
      ensures ok <==> !spurious && old(s.replicas.nodes[i].poller.session) in old(s.replicas.live)
      ensures if spurious then Silent() && s == old(s) else Made(Replicate(R.CheckAlive(i)))
      ensures s.replicas.nodes[i].poller ==
              if ok then R.Ready(old(s.replicas.nodes[i].poller.session), old(s.replicas.nodes[i].poller.service))
              else if spurious then old(s.replicas.nodes[i].poller) else R.Follower
      ensures s.replicas.rows == old(s.replicas.rows)
    {
      if spurious {
        return false;
      }
      Ask(R.CheckAlive(i));
      return s.replicas.nodes[i].poller.Ready?;
    }

    /** Relinquishes leadership if it is still held; the session keeps no lock. */
    method Close(i: Instance)
      requires Valid() && LiveInstance(s, i)
      requires s.replicas.nodes[i].poller.Checking? || s.replicas.nodes[i].poller.Follower?
      modifies this
      ensures Continued() && LiveInstance(s, i) && s.replicas.nodes[i].poller.Follower?
      ensures old(s.replicas.nodes[i].poller).Checking? ==>
                old(s.replicas.nodes[i].poller.session) !in s.replicas.holders && Made(Replicate(R.Resign(i)))
      ensures old(s.replicas.nodes[i].poller).Follower? ==> Silent() && s == old(s)
    {
      if s.replicas.nodes[i].poller.Checking? {
        Ask(R.Resign(i));
      }
    }

    /** One processor's poll, with a start time of its own. What it records is the answer
        to its own request; none of its other calls touches the table. */
    method PollProcessor(i: Instance, turn: PollTurn)
      requires Valid() && LiveInstance(s, i) && s.replicas.nodes[i].poller.Ready?
      modifies this
      ensures Continued()
      ensures LiveInstance(s, i) ==>
                && s.replicas.nodes[i].poller ==
                   R.Checking(old(s.replicas.nodes[i].poller.session), R.Next(old(s.replicas.nodes[i].poller.service)))
                && calls == old(calls) + PollCalls(i, turn)
                && PollWrites(moments, |old(calls)|, turn, old(s.replicas.nodes[i].poller.service))
    {
      if !turn.started {
        Ask(R.Abandon(i));
        return;
      }
      Ask(R.StartPoll(i));
      AwaitAnswer(i, turn);
    }

    /** The health request. An answer that fails or is incomplete is not an observation. */
    method AwaitAnswer(i: Instance, turn: PollTurn)
      requires Valid() && LiveInstance(s, i) && s.replicas.nodes[i].poller.Requested?
      modifies this
      ensures Continued()
      ensures LiveInstance(s, i) ==>
                var c := old(s.replicas.nodes[i].poller);
                && s.replicas.nodes[i].poller == R.Checking(c.session, R.Next(c.service))
                && calls == old(calls) + AnswerCalls(i, turn)
                && AnswerWrites(moments, |old(calls)|, turn, c.service, c.startedAt)
    {
      Others(turn.others(2), TheLeader(i), None);
      if !LiveInstance(s, i) {
        return;
      }
      if turn.available.None? {
        Ask(R.Abandon(i));
        return;
      }
      FinishPoll(i, turn);
    }

    method FinishPoll(i: Instance, turn: PollTurn)
      requires Valid() && LiveInstance(s, i) && s.replicas.nodes[i].poller.Requested? && turn.available.Some?
      modifies this
      ensures Continued()
      ensures LiveInstance(s, i) ==>
                var c := old(s.replicas.nodes[i].poller);
                && s.replicas.nodes[i].poller == R.Checking(c.session, R.Next(c.service))
                && calls == old(calls) + AnswerCalls(i, turn)
                && AnswerWrites(moments, |old(calls)|, turn, c.service, c.startedAt)
    {
      Ask(R.Answer(i, turn.available.value));
      Others(turn.others(3), TheLeader(i), None);
      if !LiveInstance(s, i) {
        return;
      }
      RecordPollObservation(i, turn);
    }

    /** The store's part of an observation. */
    method CommitPollObservation(i: Instance, outcome: CallOutcome)
      requires Valid() && LiveInstance(s, i) && s.replicas.nodes[i].poller.Observed?
      modifies this
      ensures Made(RecordCall(i, outcome)) && LiveInstance(s, i)
      ensures var c := old(s.replicas.nodes[i].poller);
              && s.replicas.nodes[i].poller == R.Checking(c.session, R.Next(c.service))
              && s.replicas.rows == (if outcome.LostUnapplied? then old(s.replicas.rows)
                                     else PolledRows(old(s.replicas.rows), c.service, c.available, c.startedAt))
              && (!outcome.LostUnapplied? ==>
                    PollWritten(old(s.replicas.rows), s.replicas.rows, c.service, c.available, c.startedAt))
              && var row := PollRow(old(s.replicas.rows), c.service, c.available, c.startedAt);
                 outcome.Replied? && row.Some? ==> R.Notice(i, row.value, false) in s.replicas.notices
    {
      ReachedService(origin, trace, s, s.replicas.nodes[i].poller.service);
      Ask(if outcome.LostUnapplied? then R.Abandon(i) else R.Record(i, outcome.Replied?));
    }

    /** An accepted observation whose row came back is applied here and then broadcast. */
    method RecordPollObservation(i: Instance, turn: PollTurn)
      requires Valid() && LiveInstance(s, i) && s.replicas.nodes[i].poller.Observed?
      modifies this
      ensures Continued() && calls == old(calls) + [RecordCall(i, turn.record)]
      ensures moments[|old(calls)|].state == old(s)
      ensures var c := old(s.replicas.nodes[i].poller);
              && (turn.record.LostUnapplied? ==> LeavesTable(moments[|old(calls)|]))
              && (!turn.record.LostUnapplied? ==>
                    WritesPoll(moments[|old(calls)|], c.service, c.available, c.startedAt))
              && (LiveInstance(s, i) ==>
                    && s.replicas.nodes[i].poller == R.Checking(c.session, R.Next(c.service))
                    && var row := PollRow(old(s.replicas.rows), c.service, c.available, c.startedAt);
                       turn.record.Replied? && row.Some? ==>
                         Knows(s, i, row.value) && (turn.sent ==> OnItsWay(s, row.value)))
    {
      var c := s.replicas.nodes[i].poller;
      var row := PollRow(s.replicas.rows, c.service, c.available, c.startedAt);
      CommitPollObservation(i, turn.record);
      if turn.record.Replied? && row.Some? {
        ghost var applied, published := Announce(TheLeader(i), row.value, turn.sent, turn.others(4),
                                                   turn.others(5));
      }
    }
  }

  function Publication(n: R.Notice, sent: bool): R.Label {
    if sent then R.Broadcast(n) else R.Skip(n)
  }

  /** The lock statement reaches the database on a session not used before. */
  predicate Opens(s: State, session: R.Session, outcome: CallOutcome) {
    session !in s.replicas.used && !outcome.LostUnapplied?
  }

  predicate PubAcked(s: State, d: Owner, stored: bool, acked: bool)
    requires d in s.dispatchers && s.dispatchers[d].pc.Publishing?
  {
    acked && (stored || s.dispatchers[d].pc.id in s.stream.stored)
  }

  /** Where an answer takes a worker that submitted under this claim. */
  function Heard(pc: WorkerPc, answer: HttpOutcome): WorkerPc
    requires pc.Claimed? || pc.Submitting?
  {
    match Classify(answer)
    case ProcessConfirmed => Confirmed(pc.d, pc.claim)
    case ProcessUnavailable => Failing(pc.d, pc.claim)
    case ProcessRetryable => Releasing(pc.d, pc.claim)
  }

  lemma ReachedService(origin: State, trace: seq<Label>, s: State, p: Processor)
    requires ReachedBy(origin, trace, s)
    ensures p in s.replicas.rows ==> s.replicas.rows[p].service == p
  {
    ReachedMeansInv(origin, trace, s);
    assert R.HistoryOkAt(s.replicas, p) by {
      assert p == Default || p == Fallback;
    }
  }

  lemma HomeIsLive(origin: State, trace: seq<Label>, s: State, w: Owner)
    requires ReachedBy(origin, trace, s) && w in s.workers
    ensures LiveInstance(s, s.workers[w].instance)
  {
    ReachedMeansInv(origin, trace, s);
  }

  lemma AckedIsCompleted(origin: State, trace: seq<Label>, s: State, w: Owner)
    requires ReachedBy(origin, trace, s) && w in s.workers && s.workers[w].pc.Acking?
    ensures IsCompleted(s, s.workers[w].pc.d.id)
  {
    ReachedMeansInv(origin, trace, s);
    assert WorkerOk(s, s.workers[w].pc);
  }

  lemma RecordedNow(origin: State, trace: seq<Label>, s: State, w: Owner)
    requires ReachedBy(origin, trace, s) && w in s.workers && s.workers[w].pc.Submitting?
    ensures var p := s.workers[w].pc.claim.payment;
            p.id in s.books.Of(p.assignment).sent && p.id == s.workers[w].pc.d.id
  {
    ReachedMeansInv(origin, trace, s);
    assert WorkerOk(s, s.workers[w].pc);
  }

  // ----- The worker loop -----

  /** The environment's decisions for one turn of a worker's loop. `others(0)` is what
      everybody else does before the turn, `others(k)` before its k-th next statement. */
  datatype WorkerTurn = WorkerTurn(
    message: Option<Seq>, claim: CallOutcome, answer: HttpOutcome, report: CallOutcome,
    sent: bool, release: bool, complete: CallOutcome, ack: bool, others: nat -> seq<Label>)

  /** How a turn went: nothing was fetched; the claim's reply was lost; the claim was
      refused; the payment was found completed; or it was submitted. */
  datatype Course = Nothing | Lost | Refused | Found | Submitted(completed: bool)

  /** After a granted claim: submit; then complete and acknowledge only what this
      worker was told it completed, or report an unavailable processor, release and
      leave the message for a retry. */
  function Submission(w: Owner, turn: WorkerTurn, completed: bool): seq<Label> {
    [WorkerDoes(w, Submit), WorkerDoes(w, Hear(turn.answer))] +
    if Classify(turn.answer).ProcessConfirmed? then
      [WorkerDoes(w, Complete(turn.complete)), Settle(w, turn, completed)]
    else Retreat(w, turn)
  }

  function Retreat(w: Owner, turn: WorkerTurn): seq<Label> {
    var back := [WorkerDoes(w, Release(turn.release)), WorkerDoes(w, Nak)];
    if Classify(turn.answer).ProcessUnavailable? then [WorkerDoes(w, ReportFailure(turn.report))] + back else back
  }

  function Settle(w: Owner, turn: WorkerTurn, acked: bool): Label {
    WorkerDoes(w, if acked then Ack(turn.ack) else Nak)
  }

  function Opening(w: Owner, turn: WorkerTurn): seq<Label> {
    if turn.message.None? then []
    else [WorkerDoes(w, Fetch(turn.message.value))] + Claiming(w, turn)
  }

  function Claiming(w: Owner, turn: WorkerTurn): seq<Label> {
    [WorkerDoes(w, Select), WorkerDoes(w, ClaimIt(turn.claim))]
  }

  function TurnCalls(w: Owner, turn: WorkerTurn, course: Course): seq<Label> {
    if course.Nothing? then [] else Opening(w, turn) + Following(w, turn, course)
  }

  function Following(w: Owner, turn: WorkerTurn, course: Course): seq<Label> {
    if course.Submitted? then Submission(w, turn, course.completed) else [Settle(w, turn, course.Found?)]
  }

  /** From the n-th call on, the worker reported a failing processor. */
  predicate Reported(calls: seq<Label>, n: nat, w: Owner) {
    exists k | n <= k < |calls| :: calls[k].WorkerDoes? && calls[k].w == w && calls[k].wstep.ReportFailure?
  }

  /** A turn reports a failure if and only if it submitted and the answer was an expired
      deadline or a status from 500 to 599. */
  lemma TurnReports(base: seq<Label>, w: Owner, turn: WorkerTurn, course: Course)
    ensures Reported(base + TurnCalls(w, turn, course), |base|, w) <==>
            && course.Submitted?
            && (turn.answer.TimedOut? || (turn.answer.Response? && 500 <= turn.answer.status <= 599))
  {
    var calls := base + TurnCalls(w, turn, course);
    if course.Submitted? && Classify(turn.answer).ProcessUnavailable? {
      var k := |base| + |Opening(w, turn)| + 2;
      assert calls[k] == WorkerDoes(w, ReportFailure(turn.report));
    }
  }

  predicate Fetchable(s: State, turn: WorkerTurn) {
    turn.message.Some? && turn.message.value in s.stream.messages
  }

  predicate AfterClaim(pc: WorkerPc, claim: Result<PaymentClaim>) {
    match claim
    case Failure => pc.Naking?
    case Success(PaymentClaimed(_)) => pc.Claimed?
    case Success(PaymentCompleted) => pc.Acking?
    case Success(_) => pc.Naking?
  }

  /** The course that each answer to the claim prescribes. */
  predicate CourseFits(course: Course, claim: Result<PaymentClaim>) {
    match claim
    case Failure => course.Lost?
    case Success(PaymentClaimed(_)) => course.Submitted?
    case Success(PaymentCompleted) => course.Found?
    case Success(_) => course.Refused?
  }

  /** The processor confirmed, and this worker learned that the completion it asked for
      in state `completing` was applied. */
  predicate Paid(turn: WorkerTurn, completing: State, w: Owner) {
    Classify(turn.answer).ProcessConfirmed? && turn.complete.Replied? && WouldComplete(completing, w)
  }

  /** What the claim statement answered in state `claiming`, if the answer arrived. */
  predicate ClaimHeard(w: Owner, turn: WorkerTurn, claiming: State, claim: Result<PaymentClaim>) {
    HasSelected(claiming, w) && claim == if turn.claim.Replied? then Success(ReplyAt(claiming, w)) else Failure
  }

  /** The state in which the n-th call was made, if it was. */
  function MomentOf(moments: seq<Moment>, n: nat, s: State): State {
    if n < |moments| then moments[n].state else s
  }

  /** After the claim: acknowledge, leave the message, or submit. */
  method FollowClaim(c: Cluster, w: Owner, turn: WorkerTurn, claim: Result<PaymentClaim>)
    returns (course: Course, acked: Option<Uuid>)
    requires c.Valid() && w in c.s.workers && AfterClaim(c.s.workers[w].pc, claim)
    modifies c
    ensures c.Continued() && (w in c.s.workers ==> c.s.workers[w].pc.Idle?)
    ensures !course.Nothing? && CourseFits(course, claim)
    ensures acked.Some? ==> IsCompleted(c.s, acked.value) && acked.value == old(c.s.workers[w].pc.d.id)
    ensures w in c.s.workers ==>
              && c.calls == old(c.calls) + Following(w, turn, course)
              && (acked.Some? <==> course.Found? || course == Submitted(true))
              && (course.Submitted? ==>
                    (course.completed <==> Paid(turn, MomentOf(c.moments, |old(c.calls)| + 2, c.s), w)))
  {
    acked := None;
    if claim.Failure? {
      c.Nak(w);
      return Lost, None;
    }
    match claim.value {
      case PaymentCompleted =>
        var id := c.s.workers[w].pc.d.id;
        c.Ack(w, turn.ack);
        return Found, Some(id);
      case PaymentUnassigned =>
        c.Nak(w);
        return Refused, None;
      case PaymentNotClaimable =>
        c.Nak(w);
        return Refused, None;
      case PaymentClaimed(_) =>
        acked := SubmitOnce(c, w, turn);
        course := Submitted(acked.Some?);
    }
  }

  /** One turn of the worker loop: at most one delivery, acknowledged or left to be
      redelivered. */
  method WorkOnce(c: Cluster, w: Owner, turn: WorkerTurn)
    returns (course: Course, acked: Option<Uuid>, answer: Result<PaymentClaim>)
    requires c.Valid() && w in c.s.workers && c.s.workers[w].pc.Idle?
    modifies c
    ensures c.Continued() && (w in c.s.workers ==> c.s.workers[w].pc.Idle?)
    ensures acked.Some? ==> IsCompleted(c.s, acked.value)
    ensures !Fetchable(old(c.s), turn) ==> course == Nothing && c.Silent() && c.s == old(c.s)
    ensures Fetchable(old(c.s), turn) && w in c.s.workers ==>
              && c.calls == old(c.calls) + TurnCalls(w, turn, course)
              && (Reported(c.calls, |old(c.calls)|, w) <==>
                  && course.Submitted?
                  && (turn.answer.TimedOut? || (turn.answer.Response? && 500 <= turn.answer.status <= 599)))
              && CourseFits(course, answer)
              && ClaimHeard(w, turn, MomentOf(c.moments, |old(c.calls)| + 2, c.s), answer)
              && (acked.Some? <==> course.Found? || course == Submitted(true))
              && (acked.Some? ==> acked.value == old(c.s.stream.messages)[turn.message.value])
              && (course.Submitted? ==>
                    (course.completed <==> Paid(turn, MomentOf(c.moments, |old(c.calls)| + 5, c.s), w)))
  {
    course, acked, answer := Nothing, None, Failure;
    var delivery := c.Next(w, turn.message);
    if delivery.Failure? {
      return;
    }
    c.Others(turn.others(1), TheWorker(w), None);
    if w !in c.s.workers {
      return;
    }
    course, acked, answer := HandleDelivery(c, w, turn);
    TurnReports(old(c.calls), w, turn, course);
  }

  /** Select and claim, and then what the answer prescribes. */
  method HandleDelivery(c: Cluster, w: Owner, turn: WorkerTurn)
    returns (course: Course, acked: Option<Uuid>, answer: Result<PaymentClaim>)
    requires c.Valid() && w in c.s.workers && c.s.workers[w].pc.Fetched?
    modifies c
    ensures c.Continued() && (w in c.s.workers ==> c.s.workers[w].pc.Idle?)
    ensures acked.Some? ==> IsCompleted(c.s, acked.value) && acked.value == old(c.s.workers[w].pc.d.id)
    ensures w in c.s.workers ==>
              && c.calls == old(c.calls) + Claiming(w, turn) + Following(w, turn, course)
              && !course.Nothing? && CourseFits(course, answer)
              && ClaimHeard(w, turn, MomentOf(c.moments, |old(c.calls)| + 1, c.s), answer)
              && (acked.Some? <==> course.Found? || course == Submitted(true))
              && (course.Submitted? ==>
                    (course.completed <==> Paid(turn, MomentOf(c.moments, |old(c.calls)| + 4, c.s), w)))
  {
    course, acked, answer := Nothing, None, Failure;
    var claim := ClaimOnce(c, w, turn);
    if claim.Some? {
      answer := claim.value;
      course, acked := FollowClaim(c, w, turn, claim.value);
    }
  }

  /** Select, then claim. None when the worker was stopped meanwhile. */
  method ClaimOnce(c: Cluster, w: Owner, turn: WorkerTurn) returns (claim: Option<Result<PaymentClaim>>)
    requires c.Valid() && w in c.s.workers && c.s.workers[w].pc.Fetched?
    modifies c
    ensures c.Continued() && (claim.None? <==> w !in c.s.workers)
    ensures claim.Some? ==>
              && c.calls == old(c.calls) + Claiming(w, turn)
              && ClaimHeard(w, turn, c.moments[|old(c.calls)| + 1].state, claim.value)
              && AfterClaim(c.s.workers[w].pc, claim.value) && c.s.workers[w].pc.d == old(c.s.workers[w].pc.d)
  {
    var selected := c.SelectProcessor(w);
    c.Others(turn.others(2), TheWorker(w), None);
    if w !in c.s.workers {
      return None;
    }
    var reply := c.ClaimPayment(w, turn.claim);
    c.Others(turn.others(3), TheWorker(w), None);
    return if w in c.s.workers then Some(reply) else None;
  }

  /** The rest of the turn, once a claim was granted. */
  method SubmitOnce(c: Cluster, w: Owner, turn: WorkerTurn) returns (acked: Option<Uuid>)
    requires c.Valid() && w in c.s.workers && c.s.workers[w].pc.Claimed?
    modifies c
    ensures c.Continued() && (w in c.s.workers ==> c.s.workers[w].pc.Idle?)
    ensures acked.Some? ==> IsCompleted(c.s, acked.value) && acked.value == old(c.s.workers[w].pc.d.id)
    ensures w in c.s.workers ==>
              && c.calls == old(c.calls) + Submission(w, turn, acked.Some?)
              && (acked.Some? <==> Paid(turn, c.moments[|old(c.calls)| + 2].state, w))
  {
    acked := None;
    var result := c.Process(w, turn.answer, turn.others(4));
    if result.None? {
      return;
    }
    c.Others(turn.others(5), TheWorker(w), None);
    if w !in c.s.workers {
      return;
    }
    if result.value != ProcessConfirmed {
      GiveUp(c, w, turn);
      return;
    }
    acked := CompleteOnce(c, w, turn);
  }

  /** An unconfirmed payment: an unavailable processor is reported, and in any case the
      claim is released and the message left for a retry. */
  method GiveUp(c: Cluster, w: Owner, turn: WorkerTurn)
    requires c.Valid() && w in c.s.workers && !Classify(turn.answer).ProcessConfirmed?
    requires if Classify(turn.answer).ProcessUnavailable? then c.s.workers[w].pc.Failing?
             else c.s.workers[w].pc.Releasing?
    modifies c
    ensures c.Continued() && (w in c.s.workers ==> c.s.workers[w].pc.Idle?)
    ensures w in c.s.workers ==> c.calls == old(c.calls) + Retreat(w, turn)
  {
    if Classify(turn.answer).ProcessUnavailable? {
      c.RecordPassiveFailure(w, turn.report, turn.sent, turn.others(6), turn.others(7));
      if w !in c.s.workers {
        return;
      }
      c.Others(turn.others(8), TheWorker(w), None);
      if w !in c.s.workers {
        return;
      }
    }
    c.ReleaseAndNak(w, turn.release, turn.others(9));
  }

  /** A confirmed payment: acknowledged if and only if this worker was told that it
      completed it. */
  method CompleteOnce(c: Cluster, w: Owner, turn: WorkerTurn) returns (acked: Option<Uuid>)
    requires c.Valid() && w in c.s.workers && c.s.workers[w].pc.Confirmed?
    modifies c
    ensures c.Continued() && (w in c.s.workers ==> c.s.workers[w].pc.Idle?)
    ensures acked.Some? ==> IsCompleted(c.s, acked.value) && acked.value == old(c.s.workers[w].pc.d.id)
    ensures w in c.s.workers ==>
              && c.calls == old(c.calls) + [WorkerDoes(w, Complete(turn.complete)), Settle(w, turn, acked.Some?)]
              && c.moments[|old(c.calls)|].state == old(c.s)
              && (acked.Some? <==> turn.complete.Replied? && WouldComplete(old(c.s), w))
  {
    acked := None;
    var id := c.s.workers[w].pc.d.id;
    var completed := c.CompletePayment(w, turn.complete);
    c.Others(turn.others(10), TheWorker(w), None);
    if w !in c.s.workers {
      return;
    }
    if completed.Failure? {
      c.Nak(w);
      return;
    }
    if !completed.value {
      c.Nak(w);
      return;
    }
    c.Ack(w, turn.ack);
    return Some(id);
  }

  /** What the loop did over its first turns, given the course each of them took. */
  function LoopCalls(w: Owner, script: seq<WorkerTurn>, courses: seq<Course>): seq<Label>
    requires |courses| <= |script|
  {
    if courses == [] then []
    else
      var n := |courses| - 1;
      LoopCalls(w, script, courses[..n]) + TurnCalls(w, script[n], courses[n])
  }

  lemma Regroup(a: seq<Label>, b: seq<Label>, c: seq<Label>)
    ensures a + (b + c) == a + b + c
  {
  }

  lemma LoopGrows(base: seq<Label>, w: Owner, script: seq<WorkerTurn>, courses: seq<Course>, course: Course)
    requires |courses| < |script|
    ensures base + LoopCalls(w, script, courses + [course]) ==
            base + LoopCalls(w, script, courses) + TurnCalls(w, script[|courses|], course)
  {
    assert (courses + [course])[..|courses|] == courses;
    Regroup(base, LoopCalls(w, script, courses), TurnCalls(w, script[|courses|], course));
  }

  predicate Acknowledges(course: Course) {
    course.Found? || course == Submitted(true)
  }

  /** A turn that began at `start`, no earlier than `from`: it did nothing if and only if
      there was no message to fetch then, and a payment it acknowledged is completed. */
  ghost predicate TurnOk(origin: State, trace: seq<Label>, s: State, from: nat, start: Start, turn: WorkerTurn,
                         course: Course)
  {
    && Stood(origin, trace, from, start)
    && (course.Nothing? <==> !Fetchable(start.state, turn))
    && (Acknowledges(course) ==> IsCompleted(s, start.state.stream.messages[turn.message.value]))
  }

  lemma TurnLasts(origin: State, trace: seq<Label>, s: State, trace': seq<Label>, s': State, from: nat, start: Start,
                  turn: WorkerTurn, course: Course)
    requires TurnOk(origin, trace, s, from, start, turn, course)
    requires ReachedBy(origin, trace, s) && ReachedBy(origin, trace', s') && trace <= trace'
    ensures TurnOk(origin, trace', s', from, start, turn, course)
  {
    StoodLasts(origin, trace, trace', s', from, start);
    EarlierExtends(origin, trace, s, trace', s');
    CompletionsLast(s, s');
  }

  ghost predicate TurnsOk(origin: State, trace: seq<Label>, s: State, from: nat, starts: seq<Start>,
                          script: seq<WorkerTurn>, courses: seq<Course>)
  {
    && |starts| == |courses| <= |script|
    && forall k {:trigger TurnOk(origin, trace, s, from, starts[k], script[k], courses[k])} | 0 <= k < |courses| ::
         TurnOk(origin, trace, s, from, starts[k], script[k], courses[k])
  }

  lemma TurnsGrow(origin: State, trace: seq<Label>, s: State, trace': seq<Label>, s': State, from: nat,
                  starts: seq<Start>, script: seq<WorkerTurn>, courses: seq<Course>, start: Start, course: Course)
    requires TurnsOk(origin, trace, s, from, starts, script, courses) && |courses| < |script|
    requires ReachedBy(origin, trace, s) && ReachedBy(origin, trace', s') && trace <= trace'
    requires TurnOk(origin, trace', s', from, start, script[|courses|], course)
    ensures TurnsOk(origin, trace', s', from, starts + [start], script, courses + [course])
  {
    forall k | 0 <= k < |courses + [course]|
      ensures TurnOk(origin, trace', s', from, (starts + [start])[k], script[k], (courses + [course])[k])
    {
      if k < |courses| {
        TurnLasts(origin, trace, s, trace', s', from, starts[k], script[k], courses[k]);
      }
    }
  }

  /** Everybody else runs, and then the worker takes a turn. */
  method TakeTurn(c: Cluster, w: Owner, turn: WorkerTurn, ghost from: nat)
    returns (course: Course, ghost start: Start)
    requires c.Valid() && w in c.s.workers && c.s.workers[w].pc.Idle? && from <= |c.trace|
    modifies c
    ensures c.Continued() && (w in c.s.workers ==> c.s.workers[w].pc.Idle?)
    ensures w in c.s.workers ==>
              && c.calls == old(c.calls) + TurnCalls(w, turn, course)
              && TurnOk(c.origin, c.trace, c.s, from, start, turn, course)
  {
    course := Nothing;
    c.Others(turn.others(0), TheWorker(w), None);
    start := Start(|c.trace|, c.s);
    if w in c.s.workers {
      StandsNow(c.origin, c.trace, c.s, from);
      ghost var trace := c.trace;
      var acked, answer;
      course, acked, answer := WorkOnce(c, w, turn);
      StoodLasts(c.origin, trace, c.trace, c.s, from, start);
    }
  }

  /** The worker loop, for as long as its script lasts or until it is stopped. Everybody
      else runs before each turn, so also while the worker waits for a message. What it
      did is its turns one after another, each begun at some point of the run; a turn
      does nothing only when there is nothing to fetch, and whatever the loop
      acknowledged is durably completed. */
  method RunWorker(c: Cluster, w: Owner, script: seq<WorkerTurn>)
    returns (courses: seq<Course>, ghost starts: seq<Start>)
    requires c.Valid() && w in c.s.workers && c.s.workers[w].pc.Idle?
    modifies c
    ensures c.Continued() && (w in c.s.workers ==> c.s.workers[w].pc.Idle?)
    ensures w in c.s.workers ==>
              && |courses| == |script| && c.calls == old(c.calls) + LoopCalls(w, script, courses)
              && TurnsOk(c.origin, c.trace, c.s, |old(c.trace)|, starts, script, courses)
  {
    courses, starts := [], [];
    while |courses| < |script| && w in c.s.workers
      invariant |courses| <= |script|
      invariant c.Continued() && (w in c.s.workers ==> c.s.workers[w].pc.Idle?)
      invariant w in c.s.workers ==>
                  && c.calls == old(c.calls) + LoopCalls(w, script, courses)
                  && TurnsOk(c.origin, c.trace, c.s, |old(c.trace)|, starts, script, courses)
      decreases |script| - |courses|
    {
      ghost var trace, s := c.trace, c.s;
      ghost var start;
      var course;
      course, start := TakeTurn(c, w, script[|courses|], |old(c.trace)|);
      if w in c.s.workers {
        TurnsGrow(c.origin, trace, s, c.trace, c.s, |old(c.trace)|, starts, script, courses, start, course);
        LoopGrows(old(c.calls), w, script, courses, course);
      }
      courses, starts := courses + [course], starts + [start];
    }
  }

  lemma CompletionsLast(s: State, s': State)
    requires Extends(s, s')
    ensures forall id | IsCompleted(s, id) :: IsCompleted(s', id)
  {
  }

  // ----- The dispatcher loop -----

  datatype DispatcherTurn = DispatcherTurn(
    row: Option<Uuid>, claimReplied: bool, stored: bool, acked: bool, mark: bool, release: bool,
    others: nat -> seq<Label>)

  /** No row was free; one was leased but the reply was lost; or one was published. */
  datatype Attempt = NoRow | NoReply | Tried(acked: bool)

  /** A turn that was granted a row: publish it, then mark it only on an acknowledgement,
      and otherwise hand it back. */
  function AttemptCalls(d: Owner, turn: DispatcherTurn, attempt: Attempt): seq<Label> {
    if turn.row.None? then []
    else match attempt
         case NoRow => []
         case NoReply => [DispatcherDoes(d, ClaimRow(turn.row.value, false))]
         case Tried(acked) => [DispatcherDoes(d, ClaimRow(turn.row.value, true))] + PublishCalls(d, turn, acked)
  }

  function PublishCalls(d: Owner, turn: DispatcherTurn, acked: bool): seq<Label> {
    [DispatcherDoes(d, Publish(turn.stored, acked)),
     DispatcherDoes(d, if acked then Mark(turn.mark) else Unclaim(turn.release))]
  }

  method DispatchOnce(c: Cluster, d: Owner, turn: DispatcherTurn) returns (attempt: Attempt, published: Option<Uuid>)
    requires c.Valid() && d in c.s.dispatchers && c.s.dispatchers[d].pc.Seeking?
    modifies c
    ensures c.Continued() && (d in c.s.dispatchers ==> c.s.dispatchers[d].pc.Seeking?)
    ensures published.Some? ==> published.value in c.s.stream.stored && published == turn.row
    ensures attempt.NoRow? <==> !old(Claimable(c.s, turn.row))
    ensures attempt.Tried? <==> old(Claimable(c.s, turn.row)) && turn.claimReplied
    ensures d in c.s.dispatchers ==>
              && c.calls == old(c.calls) + AttemptCalls(d, turn, attempt)
              && (attempt.Tried? ==>
                    && (attempt.acked <==> published.Some?)
                    && var before := c.moments[|old(c.calls)| + 1].state;
                       && d in before.dispatchers && before.dispatchers[d].pc == Publishing(turn.row.value)
                       && (attempt.acked <==> PubAcked(before, d, turn.stored, turn.acked)))
  {
    published := None;
    attempt := if !Claimable(c.s, turn.row) then NoRow else if turn.claimReplied then Tried(false) else NoReply;
    var claimed := c.ClaimOutbox(d, turn.row, turn.claimReplied);
    if claimed.Failure? {
      return;
    }
    if claimed.value.None? {
      return;
    }
    c.Others(turn.others(1), TheDispatcher(d), None);
    if d !in c.s.dispatchers {
      return;
    }
    published := PublishOnce(c, d, turn);
    attempt := Tried(published.Some?);
  }

  /** The rest of the turn, once a row was claimed. */
  method PublishOnce(c: Cluster, d: Owner, turn: DispatcherTurn) returns (published: Option<Uuid>)
    requires c.Valid() && d in c.s.dispatchers && c.s.dispatchers[d].pc.Publishing?
    modifies c
    ensures c.Continued() && (d in c.s.dispatchers ==> c.s.dispatchers[d].pc.Seeking?)
    ensures published.Some? ==>
              published.value == old(c.s.dispatchers[d].pc.id) && published.value in c.s.stream.stored
    ensures d in c.s.dispatchers ==>
              && c.calls == old(c.calls) + PublishCalls(d, turn, published.Some?)
              && c.moments[|old(c.calls)|].state == old(c.s)
              && (published.Some? <==> PubAcked(old(c.s), d, turn.stored, turn.acked))
  {
    published := None;
    var id := c.s.dispatchers[d].pc.id;
    var ok := c.Publish(d, turn.stored, turn.acked);
    ghost var trace, s := c.trace, c.s;
    c.Others(turn.others(2), TheDispatcher(d), None);
    if d !in c.s.dispatchers {
      return;
    }
    if !ok {
      c.ReleaseOutbox(d, turn.release);
      return;
    }
    c.MarkOutboxDispatched(d, turn.mark);
    EarlierExtends(c.origin, trace, s, c.trace, c.s);
    return Some(id);
  }

  function AllAttempts(d: Owner, script: seq<DispatcherTurn>, attempts: seq<Attempt>): seq<Label>
    requires |attempts| <= |script|
  {
    if attempts == [] then []
    else
      var n := |attempts| - 1;
      AllAttempts(d, script, attempts[..n]) + AttemptCalls(d, script[n], attempts[n])
  }

  lemma AttemptsGrow(base: seq<Label>, d: Owner, script: seq<DispatcherTurn>, attempts: seq<Attempt>, attempt: Attempt)
    requires |attempts| < |script|
    ensures base + AllAttempts(d, script, attempts + [attempt]) ==
            base + AllAttempts(d, script, attempts) + AttemptCalls(d, script[|attempts|], attempt)
  {
    assert (attempts + [attempt])[..|attempts|] == attempts;
    Regroup(base, AllAttempts(d, script, attempts), AttemptCalls(d, script[|attempts|], attempt));
  }

  /** A turn that began at `start`: it found no row if and only if the offered one was not
      free then, and what it took for published was stored. */
  ghost predicate AttemptOk(origin: State, trace: seq<Label>, s: State, from: nat, start: Start, turn: DispatcherTurn,
                            attempt: Attempt)
  {
    && Stood(origin, trace, from, start)
    && (attempt.NoRow? <==> !Claimable(start.state, turn.row))
    && (attempt == Tried(true) ==> turn.row.value in s.stream.stored)
  }

  ghost predicate AttemptsOk(origin: State, trace: seq<Label>, s: State, from: nat, starts: seq<Start>,
                             script: seq<DispatcherTurn>, attempts: seq<Attempt>)
  {
    && |starts| == |attempts| <= |script|
    && forall k {:trigger AttemptOk(origin, trace, s, from, starts[k], script[k], attempts[k])}
         | 0 <= k < |attempts| :: AttemptOk(origin, trace, s, from, starts[k], script[k], attempts[k])
  }

  lemma AttemptsOkGrow(origin: State, trace: seq<Label>, s: State, trace': seq<Label>, s': State, from: nat,
                       starts: seq<Start>, script: seq<DispatcherTurn>, attempts: seq<Attempt>, start: Start,
                       attempt: Attempt)
    requires AttemptsOk(origin, trace, s, from, starts, script, attempts) && |attempts| < |script|
    requires ReachedBy(origin, trace, s) && ReachedBy(origin, trace', s') && trace <= trace'
    requires AttemptOk(origin, trace', s', from, start, script[|attempts|], attempt)
    ensures AttemptsOk(origin, trace', s', from, starts + [start], script, attempts + [attempt])
  {
    forall k | 0 <= k < |attempts + [attempt]|
      ensures AttemptOk(origin, trace', s', from, (starts + [start])[k], script[k], (attempts + [attempt])[k])
    {
      if k < |attempts| {
        assert AttemptOk(origin, trace, s, from, starts[k], script[k], attempts[k]);
        StoodLasts(origin, trace, trace', s', from, starts[k]);
        EarlierExtends(origin, trace, s, trace', s');
      }
    }
  }

  /** Everybody else runs, and then the dispatcher takes a turn. */
  method TakeDispatch(c: Cluster, d: Owner, turn: DispatcherTurn, ghost from: nat)
    returns (attempt: Attempt, ghost start: Start)
    requires c.Valid() && d in c.s.dispatchers && c.s.dispatchers[d].pc.Seeking? && from <= |c.trace|
    modifies c
    ensures c.Continued() && (d in c.s.dispatchers ==> c.s.dispatchers[d].pc.Seeking?)
    ensures d in c.s.dispatchers ==>
              && c.calls == old(c.calls) + AttemptCalls(d, turn, attempt)
              && AttemptOk(c.origin, c.trace, c.s, from, start, turn, attempt)
  {
    attempt := NoRow;
    c.Others(turn.others(0), TheDispatcher(d), None);
    start := Start(|c.trace|, c.s);
    if d in c.s.dispatchers {
      StandsNow(c.origin, c.trace, c.s, from);
      ghost var trace := c.trace;
      var published;
      attempt, published := DispatchOnce(c, d, turn);
      StoodLasts(c.origin, trace, c.trace, c.s, from, start);
    }
  }

  /** The dispatcher loop: its turns one after another, with everybody else running
      before each; a turn does nothing only when the offered row is not free, and
      whatever the loop took for published was stored in the stream. */
  method RunDispatcher(c: Cluster, d: Owner, script: seq<DispatcherTurn>)
    returns (attempts: seq<Attempt>, ghost starts: seq<Start>)
    requires c.Valid() && d in c.s.dispatchers && c.s.dispatchers[d].pc.Seeking?
    modifies c
    ensures c.Continued() && (d in c.s.dispatchers ==> c.s.dispatchers[d].pc.Seeking?)
    ensures d in c.s.dispatchers ==>
              && |attempts| == |script| && c.calls == old(c.calls) + AllAttempts(d, script, attempts)
              && AttemptsOk(c.origin, c.trace, c.s, |old(c.trace)|, starts, script, attempts)
  {
    attempts, starts := [], [];
    while |attempts| < |script| && d in c.s.dispatchers
      invariant |attempts| <= |script|
      invariant c.Continued() && (d in c.s.dispatchers ==> c.s.dispatchers[d].pc.Seeking?)
      invariant d in c.s.dispatchers ==>
                  && c.calls == old(c.calls) + AllAttempts(d, script, attempts)
                  && AttemptsOk(c.origin, c.trace, c.s, |old(c.trace)|, starts, script, attempts)
      decreases |script| - |attempts|
    {
      ghost var trace, s := c.trace, c.s;
      ghost var start;
      var attempt;
      attempt, start := TakeDispatch(c, d, script[|attempts|], |old(c.trace)|);
      if d in c.s.dispatchers {
        AttemptsOkGrow(c.origin, trace, s, c.trace, c.s, |old(c.trace)|, starts, script, attempts, start, attempt);
        AttemptsGrow(old(c.calls), d, script, attempts, attempt);
      }
      attempts, starts := attempts + [attempt], starts + [start];
    }
  }

  // ----- The election loop -----

  datatype PollTurn = PollTurn(
    spurious: bool, started: bool, available: Option<bool>, record: CallOutcome, sent: bool,
    others: nat -> seq<Label>)

  /** An observation whose statement the database never applied is dropped. */
  function RecordCall(i: Instance, outcome: CallOutcome): Label {
    Replicate(if outcome.LostUnapplied? then R.Abandon(i) else R.Record(i, outcome.Replied?))
  }

  /** What one processor's poll asks, in order, given how its calls turn out. */
  function PollCalls(i: Instance, turn: PollTurn): seq<Label> {
    if !turn.started then [Replicate(R.Abandon(i))]
    else [Replicate(R.StartPoll(i))] + AnswerCalls(i, turn)
  }

  function AnswerCalls(i: Instance, turn: PollTurn): seq<Label> {
    if turn.available.None? then [Replicate(R.Abandon(i))]
    else [Replicate(R.Answer(i, turn.available.value)), RecordCall(i, turn.record)]
  }

  /** Of this poll's calls, from the n-th on, the recording one writes the answer with the
      database time read just before the request, and no other one writes anything. */
  ghost predicate PollWrites(moments: seq<Moment>, n: nat, turn: PollTurn, service: Processor) {
    && n < |moments| && LeavesTable(moments[n])
    && (turn.started ==> AnswerWrites(moments, n + 1, turn, service, moments[n].state.clock))
  }

  ghost predicate AnswerWrites(moments: seq<Moment>, n: nat, turn: PollTurn, service: Processor, startedAt: Time) {
    && n < |moments| && LeavesTable(moments[n])
    && (turn.available.Some? ==>
          && n + 1 < |moments|
          && if turn.record.LostUnapplied? then LeavesTable(moments[n + 1])
             else WritesPoll(moments[n + 1], service, turn.available.value, startedAt))
  }

  /** A liveness check that passed, and then one poll. */
  function CheckedPoll(i: Instance, turn: PollTurn): seq<Label> {
    [Replicate(R.CheckAlive(i))] + PollCalls(i, turn)
  }

  /** The first `n` polls of a script, each behind its own check. */
  function Polls(i: Instance, script: seq<PollTurn>, n: nat): seq<Label>
    requires n <= |script|
  {
    if n == 0 then [] else Polls(i, script, n - 1) + CheckedPoll(i, script[n - 1])
  }

  /** How leading ends after `n` polls: by a check that finds the session gone, or by
      resigning, when the check cannot be made or nothing is left to do. */
  function Ending(i: Instance, script: seq<PollTurn>, n: nat): seq<Label> {
    if n < |script| && !script[n].spurious then [Replicate(R.CheckAlive(i))] else [Replicate(R.Resign(i))]
  }

  /** What a round that ends leading adds after its last whole poll. */
  function Stopping(i: Instance, turn: PollTurn): seq<Label> {
    if turn.spurious then [] else [Replicate(R.CheckAlive(i))]
  }

  /** The last call was a check that found this session gone. */
  ghost predicate FoundGone(moments: seq<Moment>, session: R.Session) {
    |moments| > 0 && session !in moments[|moments| - 1].state.replicas.live
  }

  predicate MayPoll(s: State, i: Instance, session: R.Session) {
    LiveInstance(s, i) && s.replicas.nodes[i].poller == R.Checking(session, Default)
  }

  lemma PollsGrow(base: seq<Label>, i: Instance, script: seq<PollTurn>, n: nat)
    requires n < |script|
    ensures base + Polls(i, script, n + 1) == base + Polls(i, script, n) + CheckedPoll(i, script[n])
  {
  }

  /** A liveness check and, if it passes, one poll. */
  method CheckAndPoll(c: Cluster, i: Instance, turn: PollTurn) returns (ok: bool)
    requires c.Valid() && LiveInstance(c.s, i) && c.s.replicas.nodes[i].poller.Checking?
    modifies c
    ensures c.Continued()
    ensures LiveInstance(c.s, i) ==>
              var p := old(c.s.replicas.nodes[i].poller);
              if ok then
                && c.s.replicas.nodes[i].poller == R.Checking(p.session, R.Next(p.service))
                && c.calls == old(c.calls) + CheckedPoll(i, turn)
              else if turn.spurious then
                c.s.replicas.nodes[i].poller == p && c.calls == old(c.calls)
              else
                && c.s.replicas.nodes[i].poller.Follower? && FoundGone(c.moments, p.session)
                && c.calls == old(c.calls) + [Replicate(R.CheckAlive(i))]
  {
    ok := c.HasLeadership(i, turn.spurious);
    if !ok {
      return false;
    }
    c.Others(turn.others(1), TheLeader(i), None);
    if LiveInstance(c.s, i) {
      c.PollProcessor(i, turn);
    }
  }

  /** Since `base`, the program has made the first `n` polls and nothing else. The trigger
      keeps the polls folded where the fact is only passed on. */
  ghost predicate HasPolled(calls: seq<Label>, base: seq<Label>, i: Instance, script: seq<PollTurn>, n: nat) {
    n <= |script| && forall m {:trigger Polls(i, script, m)} | m == n :: calls == base + Polls(i, script, m)
  }

  ghost predicate HasStopped(calls: seq<Label>, base: seq<Label>, i: Instance, script: seq<PollTurn>, n: nat)
    requires n < |script|
  {
    forall m {:trigger Polls(i, script, m)} | m == n :: calls == base + Polls(i, script, m) + Stopping(i, script[n])
  }

  /** Leading ended before the n-th poll, by a check that could not be made or by one
      that found the session gone. */
  ghost predicate Stopped(s: State, calls: seq<Label>, moments: seq<Moment>, i: Instance, session: R.Session,
                          script: seq<PollTurn>, n: nat, base: seq<Label>)
  {
    && n < |script| && HasStopped(calls, base, i, script, n)
    && i in s.replicas.nodes
    && if script[n].spurious then s.replicas.nodes[i].poller.Checking?
       else s.replicas.nodes[i].poller.Follower? && FoundGone(moments, session)
  }

  /** Everybody else runs, and then comes the n-th poll of the loop. */
  method NextPoll(c: Cluster, i: Instance, script: seq<PollTurn>, n: nat, ghost base: seq<Label>) returns (ok: bool)
    requires c.Valid() && LiveInstance(c.s, i) && c.s.replicas.nodes[i].poller.Checking? && n < |script|
    requires HasPolled(c.calls, base, i, script, n)
    modifies c
    ensures c.Continued()
    ensures ok ==>
              && LiveInstance(c.s, i) && HasPolled(c.calls, base, i, script, n + 1)
              && var p := old(c.s.replicas.nodes[i].poller);
                 c.s.replicas.nodes[i].poller == R.Checking(p.session, R.Next(p.service))
    ensures LiveInstance(c.s, i) && !ok ==>
              Stopped(c.s, c.calls, c.moments, i, old(c.s.replicas.nodes[i].poller.session), script, n, base)
  {
    c.Others(script[n].others(0), TheLeader(i), None);
    if !LiveInstance(c.s, i) {
      return false;
    }
    ok := CheckAndPoll(c, i, script[n]);
    PollsGrow(base, i, script, n);
    ok := ok && LiveInstance(c.s, i);
  }

  /** One round of the loop: both processors in order, each behind its own liveness
      check. `base` is what the program had done before its first poll. */
  method Poll(c: Cluster, i: Instance, script: seq<PollTurn>, n: nat, session: R.Session, ghost base: seq<Label>)
    returns (goOn: bool, polled: nat)
    requires c.Valid() && MayPoll(c.s, i, session) && n + 2 <= |script|
    requires HasPolled(c.calls, base, i, script, n)
    modifies c
    ensures c.Continued() && n <= polled <= n + 2
    ensures goOn ==> polled == n + 2 && MayPoll(c.s, i, session) && HasPolled(c.calls, base, i, script, polled)
    ensures LiveInstance(c.s, i) && !goOn ==> Stopped(c.s, c.calls, c.moments, i, session, script, polled, base)
  {
    var services := [Default, Fallback];
    goOn, polled := true, n;
    while goOn && polled < n + 2
      invariant services == [Default, Fallback] && n <= polled <= n + 2
      invariant c.Continued()
      invariant goOn ==>
                  && HasPolled(c.calls, base, i, script, polled)
                  && LiveInstance(c.s, i)
                  && c.s.replicas.nodes[i].poller == R.Checking(session, if polled == n + 1 then Fallback else Default)
      invariant LiveInstance(c.s, i) && !goOn ==> Stopped(c.s, c.calls, c.moments, i, session, script, polled, base)
      decreases goOn, n + 2 - polled
    {
      assert services[polled - n] == c.s.replicas.nodes[i].poller.service;
      goOn := NextPoll(c, i, script, polled, base);
      if goOn {
        polled := polled + 1;
      }
    }
  }

  /** Everybody else runs, and then leadership is relinquished if it is still held. */
  method StepDown(c: Cluster, i: Instance, closing: seq<Label>)
    requires c.Valid() && LiveInstance(c.s, i)
    requires c.s.replicas.nodes[i].poller.Checking? || c.s.replicas.nodes[i].poller.Follower?
    modifies c
    ensures c.Continued()
    ensures LiveInstance(c.s, i) ==>
              && c.s.replicas.nodes[i].poller.Follower?
              && (if old(c.s.replicas.nodes[i].poller).Checking? then c.calls == old(c.calls) + [Replicate(R.Resign(i))]
                  else c.Silent())
  {
    c.Others(closing, TheLeader(i), None);
    if LiveInstance(c.s, i) {
      c.Close(i);
    }
  }

  /** The leader loop: polls until a check fails, its instance stops, or the script
      ends, and then relinquishes. Everybody else runs before each check, inside each
      poll and before the end. Its calls are whole polls, each behind a check that
      passed, and then the check that failed or the resignation. At most one of the
      observations it recorded came after its session had ended. */
  method RunLeader(c: Cluster, i: Instance, session: R.Session, script: seq<PollTurn>, closing: seq<Label>)
    returns (polled: nat)
    requires c.Valid() && MayPoll(c.s, i, session) && |script| % 2 == 0
    modifies c
    ensures c.Continued() && polled <= |script|
    ensures LiveInstance(c.s, i) ==>
              && c.s.replicas.nodes[i].poller.Follower?
              && c.calls == old(c.calls) + Polls(i, script, polled) + Ending(i, script, polled)
              && (polled < |script| && !script[polled].spurious ==> FoundGone(c.moments, session))
    ensures AtMostOneStale(c.calls, c.moments, |old(c.calls)|)
  {
    var goOn := true;
    polled := 0;
    while goOn && polled < |script|
      invariant polled <= |script| && c.Continued()
      invariant goOn ==>
                  && polled % 2 == 0 && MayPoll(c.s, i, session)
                  && HasPolled(c.calls, old(c.calls), i, script, polled)
      invariant LiveInstance(c.s, i) && !goOn ==>
                  Stopped(c.s, c.calls, c.moments, i, session, script, polled, old(c.calls))
      decreases goOn, |script| - polled
    {
      goOn, polled := Poll(c, i, script, polled, session, old(c.calls));
    }
    if LiveInstance(c.s, i) {
      StepDown(c, i, closing);
    }
    CallsAreStaleAtMostOnce(c.origin, c.trace, c.s, c.calls, c.moments, |old(c.calls)|);
  }

  /** One attempt at the lock, and what is polled if it succeeds. */
  datatype ElectionTurn = ElectionTurn(
    session: R.Session, outcome: CallOutcome, polls: seq<PollTurn>, others: nat -> seq<Label>)

  /** The lock was not reached; it was not granted, or not known to be; or it was, and
      so many polls were made. */
  datatype Trial = NotTried | Missed | Led(polled: nat)

  function TrialCalls(i: Instance, turn: ElectionTurn, trial: Trial): seq<Label> {
    match trial
    case NotTried => []
    case Missed => [Replicate(R.TryLead(i, turn.session, turn.outcome.Replied?))]
    case Led(polled) =>
      [Replicate(R.TryLead(i, turn.session, true))] +
      if polled <= |turn.polls| then Polls(i, turn.polls, polled) + Ending(i, turn.polls, polled) else []
  }

  /** One turn of the election loop. */
  method ElectOnce(c: Cluster, i: Instance, turn: ElectionTurn) returns (trial: Trial)
    requires c.Valid() && LiveInstance(c.s, i) && c.s.replicas.nodes[i].poller.Follower? && |turn.polls| % 2 == 0
    modifies c
    ensures c.Continued()
    ensures LiveInstance(c.s, i) ==>
              c.s.replicas.nodes[i].poller.Follower? && c.calls == old(c.calls) + TrialCalls(i, turn, trial)
    ensures trial.NotTried? <==> !Opens(old(c.s), turn.session, turn.outcome)
    ensures trial.Led? <==>
            Opens(old(c.s), turn.session, turn.outcome) && old(c.s.replicas.holders) == {} && turn.outcome.Replied?
  {
    trial := if Opens(c.s, turn.session, turn.outcome) then Missed else NotTried;
    var acquired := c.TryHealthLeadership(i, turn.session, turn.outcome);
    if !acquired {
      return;
    }
    c.Others(turn.others(1), TheLeader(i), None);
    if !LiveInstance(c.s, i) {
      return Led(0);
    }
    var polled := RunLeader(c, i, turn.session, turn.polls, turn.others(2));
    return Led(polled);
  }

  function AllTrials(i: Instance, script: seq<ElectionTurn>, trials: seq<Trial>): seq<Label>
    requires |trials| <= |script|
  {
    if trials == [] then []
    else
      var n := |trials| - 1;
      AllTrials(i, script, trials[..n]) + TrialCalls(i, script[n], trials[n])
  }

  lemma TrialsGrow(base: seq<Label>, i: Instance, script: seq<ElectionTurn>, trials: seq<Trial>, trial: Trial)
    requires |trials| < |script|
    ensures base + AllTrials(i, script, trials + [trial]) ==
            base + AllTrials(i, script, trials) + TrialCalls(i, script[|trials|], trial)
  {
    assert (trials + [trial])[..|trials|] == trials;
    Regroup(base, AllTrials(i, script, trials), TrialCalls(i, script[|trials|], trial));
  }

  /** An attempt that began at `start`: it led if and only if the lock was free then and
      the reply arrived, and did nothing only if the lock could not be asked for. */
  ghost predicate TrialOk(origin: State, trace: seq<Label>, from: nat, start: Start, turn: ElectionTurn, trial: Trial) {
    && Stood(origin, trace, from, start)
    && (trial.NotTried? <==> !Opens(start.state, turn.session, turn.outcome))
    && (trial.Led? <==>
        && Opens(start.state, turn.session, turn.outcome) && turn.outcome.Replied?
        && start.state.replicas.holders == {})
  }

  ghost predicate TrialsOk(origin: State, trace: seq<Label>, from: nat, starts: seq<Start>, script: seq<ElectionTurn>,
                           trials: seq<Trial>)
  {
    && |starts| == |trials| <= |script|
    && forall k {:trigger TrialOk(origin, trace, from, starts[k], script[k], trials[k])} | 0 <= k < |trials| ::
         TrialOk(origin, trace, from, starts[k], script[k], trials[k])
  }

  lemma TrialsOkGrow(origin: State, trace: seq<Label>, trace': seq<Label>, s': State, from: nat, starts: seq<Start>,
                     script: seq<ElectionTurn>, trials: seq<Trial>, start: Start, trial: Trial)
    requires TrialsOk(origin, trace, from, starts, script, trials) && |trials| < |script|
    requires ReachedBy(origin, trace', s') && trace <= trace'
    requires TrialOk(origin, trace', from, start, script[|trials|], trial)
    ensures TrialsOk(origin, trace', from, starts + [start], script, trials + [trial])
  {
    forall k | 0 <= k < |trials + [trial]|
      ensures TrialOk(origin, trace', from, (starts + [start])[k], script[k], (trials + [trial])[k])
    {
      if k < |trials| {
        assert TrialOk(origin, trace, from, starts[k], script[k], trials[k]);
        StoodLasts(origin, trace, trace', s', from, starts[k]);
      }
    }
  }

  /** Everybody else runs, and then the instance tries the lock. */
  method TakeTrial(c: Cluster, i: Instance, turn: ElectionTurn, ghost from: nat)
    returns (trial: Trial, ghost start: Start)
    requires c.Valid() && LiveInstance(c.s, i) && c.s.replicas.nodes[i].poller.Follower? && |turn.polls| % 2 == 0
    requires from <= |c.trace|
    modifies c
    ensures c.Continued()
    ensures LiveInstance(c.s, i) ==>
              && c.s.replicas.nodes[i].poller.Follower? && c.calls == old(c.calls) + TrialCalls(i, turn, trial)
              && TrialOk(c.origin, c.trace, from, start, turn, trial)
  {
    trial := NotTried;
    c.Others(turn.others(0), TheLeader(i), None);
    start := Start(|c.trace|, c.s);
    if LiveInstance(c.s, i) {
      StandsNow(c.origin, c.trace, c.s, from);
      ghost var trace := c.trace;
      trial := ElectOnce(c, i, turn);
      StoodLasts(c.origin, trace, c.trace, c.s, from, start);
    }
  }

  /** The election loop: tries the lock, leads while it can, relinquishes, and tries
      again, with everybody else running before each attempt. It leads exactly when an
      attempt got the lock and is never left leading; under each session it recorded at
      most one observation after the session ended; and nobody ever leads beside a live
      leader. */
  method RunElection(c: Cluster, i: Instance, script: seq<ElectionTurn>)
    returns (trials: seq<Trial>, ghost starts: seq<Start>)
    requires c.Valid() && LiveInstance(c.s, i) && c.s.replicas.nodes[i].poller.Follower?
    requires forall k | 0 <= k < |script| :: |script[k].polls| % 2 == 0
    modifies c
    ensures c.Continued()
    ensures LiveInstance(c.s, i) ==>
              && c.s.replicas.nodes[i].poller.Follower?
              && |trials| == |script| && c.calls == old(c.calls) + AllTrials(i, script, trials)
              && TrialsOk(c.origin, c.trace, |old(c.trace)|, starts, script, trials)
    ensures AtMostOneStale(c.calls, c.moments, |old(c.calls)|)
    ensures forall j, k :: LeadsAlive(c.s.replicas, j) && LeadsAlive(c.s.replicas, k) ==> j == k
  {
    trials, starts := [], [];
    while |trials| < |script| && LiveInstance(c.s, i)
      invariant |trials| <= |script| && c.Continued()
      invariant LiveInstance(c.s, i) ==>
                  && c.s.replicas.nodes[i].poller.Follower?
                  && c.calls == old(c.calls) + AllTrials(i, script, trials)
                  && TrialsOk(c.origin, c.trace, |old(c.trace)|, starts, script, trials)
      decreases |script| - |trials|
    {
      ghost var trace := c.trace;
      ghost var start;
      var trial;
      trial, start := TakeTrial(c, i, script[|trials|], |old(c.trace)|);
      if LiveInstance(c.s, i) {
        TrialsOkGrow(c.origin, trace, c.trace, c.s, |old(c.trace)|, starts, script, trials, start, trial);
        TrialsGrow(old(c.calls), i, script, trials, trial);
      }
      trials, starts := trials + [trial], starts + [start];
    }
    CallsAreStaleAtMostOnce(c.origin, c.trace, c.s, c.calls, c.moments, |old(c.calls)|);
    OneLiveLeader(c.origin, c.trace, c.s);
  }

  lemma OneLiveLeader(origin: State, trace: seq<Label>, s: State)
    requires ReachedBy(origin, trace, s)
    ensures forall j, k :: LeadsAlive(s.replicas, j) && LeadsAlive(s.replicas, k) ==> j == k
  {
    ReachedMeansInv(origin, trace, s);
    Leadership.LeadershipMeans(s.replicas);
  }
}

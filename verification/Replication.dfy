/** Replicated availability as a state machine: versioned rows in the database,
    one cache per instance, lossy and reordering broadcast, hydration, passive
    failures, and health pollers elected by an advisory lock. `history` records
    every row ever committed and what committed it; `stale` counts observations
    recorded under a session that had already ended. */
module Replication {
  import opened Domain
  import opened Tables
  import opened Routing

  type Session = nat

  datatype Cause = PassiveFailure(at: Time) | HealthPoll(available: bool, startedAt: Time)
  datatype Update = Update(row: Availability, cause: Cause)

  /** Startup: subscribe, read the table, apply the rows read, then work. */
  datatype Phase = Subscribed | Hydrating(remaining: seq<Availability>) | Live

  /** The election loop of one instance. `Checking` is about to test the session;
      `Ready` passed that test; the others are inside one processor's poll. */
  datatype Poller =
    | Follower
    | Checking(session: Session, service: Processor)
    | Ready(session: Session, service: Processor)
    | Requested(session: Session, service: Processor, startedAt: Time)
    | Observed(session: Session, service: Processor, startedAt: Time, available: bool)

  datatype Node = Node(phase: Phase, cache: Cache, inbox: set<Availability>, poller: Poller)

  /** A committed update that its sender has yet to apply locally and broadcast. */
  datatype Notice = Notice(sender: Instance, state: Availability, applied: bool)

  datatype State = State(
    rows: Cache,
    history: Both<seq<Update>>,
    nodes: map<Instance, Node>,
    notices: set<Notice>,
    live: set<Session>,
    holders: set<Session>,
    used: set<Session>,
    stale: map<Session, nat>)

  const INITIAL: State := State(map[], Both([], []), map[], {}, {}, {}, {}, map[])

  datatype Label =
    | Subscribe(i: Instance)
    | ReadRows(i: Instance, fallbackFirst: bool)
    | HydrateNext(i: Instance)
    | Stop(i: Instance)
    | ApplyLocally(n: Notice)
    | Broadcast(n: Notice)
    | Skip(n: Notice)
    | Deliver(i: Instance, e: Availability, again: bool)
    | Lose(i: Instance, e: Availability)
    | Passive(i: Instance, service: Processor, replied: bool)
    | TryLead(i: Instance, session: Session, replied: bool)
    | CheckAlive(i: Instance)
    | Resign(i: Instance)
    | EndSession(session: Session)
    | StartPoll(i: Instance)
    | Answer(i: Instance, available: bool)
    | Abandon(i: Instance)
    | Record(i: Instance, replied: bool)

  function Next(p: Processor): Processor {
    if p.Default? then Fallback else Default
  }

  function RowsInOrder(rows: Cache, fallbackFirst: bool): seq<Availability> {
    var d := if Default in rows then [rows[Default]] else [];
    var f := if Fallback in rows then [rows[Fallback]] else [];
    if fallbackFirst then f + d else d + f
  }

  predicate Enabled(s: State, l: Label) {
    match l
    case Subscribe(i) => i !in s.nodes
    case ReadRows(i, _) => i in s.nodes && s.nodes[i].phase.Subscribed?
    case HydrateNext(i) => i in s.nodes && s.nodes[i].phase.Hydrating?
    case Stop(i) => i in s.nodes
    case ApplyLocally(n) => n in s.notices && n.sender in s.nodes && !n.applied
    case Broadcast(n) => n in s.notices && n.sender in s.nodes && n.applied
    case Skip(n) => n in s.notices
    case Deliver(i, e, _) => i in s.nodes && e in s.nodes[i].inbox
    case Lose(i, e) => i in s.nodes && e in s.nodes[i].inbox
    case Passive(i, _, _) => i in s.nodes && s.nodes[i].phase.Live?
    case TryLead(i, session, _) =>
      i in s.nodes && s.nodes[i].phase.Live? && s.nodes[i].poller.Follower? && session !in s.used
    case CheckAlive(i) => i in s.nodes && s.nodes[i].poller.Checking?
    case Resign(i) => i in s.nodes && s.nodes[i].poller.Checking?
    case EndSession(session) => session in s.live
    case StartPoll(i) => i in s.nodes && s.nodes[i].poller.Ready?
    case Answer(i, _) => i in s.nodes && s.nodes[i].poller.Requested?
    case Abandon(i) =>
      i in s.nodes && (s.nodes[i].poller.Ready? || s.nodes[i].poller.Requested? || s.nodes[i].poller.Observed?)
    case Record(i, _) => i in s.nodes && s.nodes[i].poller.Observed?
  }

  function WithNode(s: State, i: Instance, n: Node): State {
    s.(nodes := s.nodes[i := n])
  }

  function WithPoller(s: State, i: Instance, p: Poller): State
    requires i in s.nodes
  {
    WithNode(s, i, s.nodes[i].(poller := p))
  }

  /** A row is committed; a sender that learns of it owes an apply and a broadcast. */
  function Commit(s: State, i: Instance, row: Availability, cause: Cause, replied: bool): State {
    s.(rows := s.rows[row.service := row],
       history := s.history.With(row.service, s.history.Of(row.service) + [Update(row, cause)]),
       notices := if replied then s.notices + {Notice(i, row, false)} else s.notices)
  }

  /** A session that closes or dies holds no lock. */
  function End(s: State, session: Session): State {
    s.(live := s.live - {session}, holders := s.holders - {session})
  }

  function Stale(s: State, session: Session): nat {
    if session in s.stale then s.stale[session] else 0
  }

  /** The poller moves on after recording; `stale` counts it if its session is gone. */
  function NextPoll(s: State, i: Instance): State
    requires i in s.nodes && s.nodes[i].poller.Observed?
  {
    var c := s.nodes[i].poller;
    WithPoller(s, i, Checking(c.session, Next(c.service)))
    .(stale := if c.session in s.live then s.stale else s.stale[c.session := Stale(s, c.session) + 1])
  }

  /** `now` is the database clock. */
  function Do(s: State, l: Label, now: Time): State
    requires Enabled(s, l)
  {
    match l
    case Subscribe(i) => WithNode(s, i, Node(Subscribed, map[], {}, Follower))
    case ReadRows(i, fallbackFirst) =>
      WithNode(s, i, s.nodes[i].(phase := Hydrating(RowsInOrder(s.rows, fallbackFirst))))
    case HydrateNext(i) =>
      var n := s.nodes[i];
      if n.phase.remaining == [] then WithNode(s, i, n.(phase := Live))
      else WithNode(s, i, n.(cache := ApplyOne(n.cache, n.phase.remaining[0]),
                             phase := Hydrating(n.phase.remaining[1..])))
    case Stop(i) => s.(nodes := s.nodes - {i})
    case ApplyLocally(n) =>
      var node := s.nodes[n.sender];
      WithNode(s, n.sender, node.(cache := ApplyOne(node.cache, n.state)))
      .(notices := s.notices - {n} + {n.(applied := true)})
    case Broadcast(n) =>
      s.(nodes := map i | i in s.nodes :: s.nodes[i].(inbox := s.nodes[i].inbox + {n.state}),
         notices := s.notices - {n})
    case Skip(n) => s.(notices := s.notices - {n})
    case Deliver(i, e, again) =>
      var n := s.nodes[i];
      WithNode(s, i, n.(cache := ApplyOne(n.cache, e), inbox := if again then n.inbox else n.inbox - {e}))
    case Lose(i, e) => WithNode(s, i, s.nodes[i].(inbox := s.nodes[i].inbox - {e}))
    case Passive(i, service, replied) =>
      Commit(s, i, PassiveRow(s.rows, service, now), PassiveFailure(now), replied)
    case TryLead(i, session, replied) =>
      if s.holders == {} then
        WithPoller(s, i, if replied then Checking(session, Default) else Follower)
        .(live := s.live + {session}, holders := s.holders + {session}, used := s.used + {session})
      else s
    case CheckAlive(i) =>
      var c := s.nodes[i].poller;
      if c.session in s.live then WithPoller(s, i, Ready(c.session, c.service))
      else WithPoller(s, i, Follower)
    case Resign(i) => End(WithPoller(s, i, Follower), s.nodes[i].poller.session)
    case EndSession(session) => End(s, session)
    case StartPoll(i) =>
      var c := s.nodes[i].poller;
      WithPoller(s, i, Requested(c.session, c.service, now))
    case Answer(i, available) =>
      var c := s.nodes[i].poller;
      WithPoller(s, i, Observed(c.session, c.service, c.startedAt, available))
    case Abandon(i) =>
      var c := s.nodes[i].poller;
      WithPoller(s, i, Checking(c.session, Next(c.service)))
    case Record(i, replied) =>
      var c := s.nodes[i].poller;
      var row := PollRow(s.rows, c.service, c.available, c.startedAt);
      var s' := NextPoll(s, i);
      if row.Some? then Commit(s', i, row.value, HealthPoll(c.available, c.startedAt), replied) else s'
  }

  // ----- Versions identify rows -----

  /** `e` is exactly what was committed as that version of that processor's row. */
  ghost predicate Genuine(history: Both<seq<Update>>, e: Availability) {
    && 1 <= e.version <= |history.Of(e.service)|
    && history.Of(e.service)[e.version - 1].row == e
  }

  ghost predicate Numbered(h: seq<Update>, p: Processor) {
    forall k | 0 <= k < |h| :: h[k].row.service == p && h[k].row.version == k + 1
  }

  ghost predicate RowIsLast(rows: Cache, h: seq<Update>, p: Processor) {
    && (p in rows <==> |h| > 0)
    && (p in rows ==> rows[p] == h[|h| - 1].row)
  }

  ghost predicate HistoryOkAt(s: State, p: Processor) {
    Numbered(s.history.Of(p), p) && RowIsLast(s.rows, s.history.Of(p), p)
  }

  /** The table holds the last committed row, and row number k + 1 has version k + 1. */
  ghost predicate HistoryOk(s: State) {
    HistoryOkAt(s, Default) && HistoryOkAt(s, Fallback)
  }

  ghost predicate GenuineCache(history: Both<seq<Update>>, cache: Cache) {
    forall p | p in cache :: cache[p].service == p && Genuine(history, cache[p])
  }

  ghost predicate NodeOk(history: Both<seq<Update>>, n: Node) {
    && GenuineCache(history, n.cache)
    && (forall e | e in n.inbox :: Genuine(history, e))
    && (n.phase.Hydrating? ==> forall e | e in n.phase.remaining :: Genuine(history, e))
  }

  ghost predicate CopiesOk(s: State) {
    && (forall i | i in s.nodes :: NodeOk(s.history, s.nodes[i]))
    && (forall n | n in s.notices :: Genuine(s.history, n.state))
  }

  ghost predicate HistoryExtends(h: Both<seq<Update>>, h': Both<seq<Update>>) {
    h.default <= h'.default && h.fallback <= h'.fallback
  }

  lemma GenuineStable(h: Both<seq<Update>>, h': Both<seq<Update>>, e: Availability)
    requires HistoryExtends(h, h') && Genuine(h, e)
    ensures Genuine(h', e)
  {
  }

  lemma NodeStable(h: Both<seq<Update>>, h': Both<seq<Update>>, n: Node)
    requires HistoryExtends(h, h') && NodeOk(h, n)
    ensures NodeOk(h', n)
  {
  }

  lemma CommitKeepsHistory(s: State, i: Instance, row: Availability, cause: Cause, replied: bool)
    requires HistoryOk(s)
    requires row.version == |s.history.Of(row.service)| + 1
    ensures HistoryOk(Commit(s, i, row, cause, replied))
    ensures HistoryExtends(s.history, Commit(s, i, row, cause, replied).history)
    ensures Genuine(Commit(s, i, row, cause, replied).history, row)
  {
  }

  lemma UpsertVersions(s: State, p: Processor, now: Time, available: bool, startedAt: Time)
    requires HistoryOk(s)
    ensures PassiveRow(s.rows, p, now).version == |s.history.Of(p)| + 1
    ensures PassiveRow(s.rows, p, now).service == p
    ensures var row := PollRow(s.rows, p, available, startedAt);
            row.Some? ==> row.value.service == p && row.value.version == |s.history.Of(p)| + 1
  {
  }

  lemma StepKeepsHistory(s: State, l: Label, now: Time)
    requires Enabled(s, l) && HistoryOk(s)
    ensures HistoryOk(Do(s, l, now))
    ensures HistoryExtends(s.history, Do(s, l, now).history)
  {
    if l.Passive? {
      UpsertVersions(s, l.service, now, false, now);
      CommitKeepsHistory(s, l.i, PassiveRow(s.rows, l.service, now), PassiveFailure(now), l.replied);
    } else if l.Record? {
      var c := s.nodes[l.i].poller;
      UpsertVersions(s, c.service, now, c.available, c.startedAt);
      var row := PollRow(s.rows, c.service, c.available, c.startedAt);
      if row.Some? {
        CommitKeepsHistory(NextPoll(s, l.i), l.i, row.value, HealthPoll(c.available, c.startedAt), l.replied);
      }
    } else {
      assert Do(s, l, now).rows == s.rows && Do(s, l, now).history == s.history;
    }
  }
}

/** What holds in every reachable state, however agents crash, calls fail
    ambiguously, messages repeat and submissions arrive late. No clock assumption
    is made here. */
module Invariants {
  import opened Domain
  import opened Tables
  import opened Routing
  import opened System
  import R = Replication
  import Recovery
  import Leadership

  // ----- Facts that are never undone -----

  ghost predicate BookExtends(b: Book, b': Book) {
    MapExtends(b.sent, b'.sent) && MapExtends(b.recorded, b'.recorded)
  }

  /** Sequence numbers are never reused: an old number keeps its message or loses it. */
  ghost predicate StreamExtends(t: Stream, t': Stream) {
    && t.stored <= t'.stored
    && t.last <= t'.last
    && (forall k | k in t'.messages && k <= t.last :: k in t.messages && t'.messages[k] == t.messages[k])
  }

  ghost predicate Extends(s: State, s': State) {
    && s'.cfg == s.cfg
    && PaymentsExtend(s.payments, s'.payments)
    && OutboxExtends(s.outbox, s'.outbox)
    && StreamExtends(s.stream, s'.stream)
    && BookExtends(s.books.default, s'.books.default)
    && BookExtends(s.books.fallback, s'.books.fallback)
    && R.HistoryExtends(s.replicas.history, s'.replicas.history)
    && MapExtends(s.routes, s'.routes)
    && s.log <= s'.log
    && s.names <= s'.names
  }

  // ----- The invariant -----

  ghost predicate BookOk(s: State, p: Processor) {
    && MapExtends(s.books.Of(p).recorded, s.books.Of(p).sent)
    && (forall id | id in s.books.Of(p).sent ::
          && id in s.payments
          && s.payments[id].assignment == Some(p)
          && s.books.Of(p).sent[id] == Entry(s.payments[id].amount, s.payments[id].requestedAt))
    && (forall id | id in s.payments && s.payments[id].processedBy == Some(p) :: id in s.books.Of(p).recorded)
  }

  predicate HasMessage(t: Stream, id: Uuid) {
    exists k | k in t.messages :: t.messages[k] == id
  }

  ghost predicate IsCompleted(s: State, id: Uuid) {
    id in s.payments && s.payments[id].state.Completed?
  }

  /** Whatever was ever stored in the stream is still there or is completed. */
  ghost predicate StreamOk(s: State) {
    && (forall k | k in s.stream.messages :: k <= s.stream.last && s.stream.messages[k] in s.stream.stored)
    && s.stream.stored <= s.payments.Keys
    && (forall id | id in s.stream.stored :: IsCompleted(s, id) || HasMessage(s.stream, id))
    && (forall id | id in s.outbox && s.outbox[id].state.Dispatched? :: id in s.stream.stored)
  }

  ghost predicate DispatcherOk(s: State, pc: DispatcherPc) {
    match pc
    case Seeking => true
    case Publishing(id) => id in s.outbox
    case Marking(id) => id in s.outbox && id in s.stream.stored
    case Unclaiming(id) => id in s.outbox
  }

  ghost predicate DeliveryOk(s: State, d: Delivery) {
    && d.id in s.payments
    && d.sequence <= s.stream.last
    && (d.sequence in s.stream.messages ==> s.stream.messages[d.sequence] == d.id)
  }

  /** The claim names the payment's permanent assignment and its stored values. */
  ghost predicate ClaimOk(s: State, d: Delivery, c: Claim) {
    && DeliveryOk(s, d)
    && c.payment.id == d.id
    && s.payments[d.id].assignment == Some(c.payment.assignment)
    && s.payments[d.id].amount == c.payment.amount
    && s.payments[d.id].requestedAt == c.payment.requestedAt
    && c.expiresAt == c.takenAt + s.cfg.claimExpiry
  }

  ghost predicate WorkerOk(s: State, pc: WorkerPc) {
    match pc
    case Idle => true
    case Fetched(d) => DeliveryOk(s, d)
    case Selected(d, selected, view) =>
      DeliveryOk(s, d) && selected == SelectFrom(view) && R.GenuineCache(s.replicas.history, view)
    case Claimed(d, c) => ClaimOk(s, d, c)
    case Submitting(d, c, _) => ClaimOk(s, d, c) && d.id in s.books.Of(c.payment.assignment).sent
    case Failing(d, c) => ClaimOk(s, d, c)
    case Releasing(d, c) => ClaimOk(s, d, c)
    case Confirmed(d, c) => ClaimOk(s, d, c) && d.id in s.books.Of(c.payment.assignment).recorded
    case Acking(d) => DeliveryOk(s, d) && IsCompleted(s, d.id)
    case Naking(d) => DeliveryOk(s, d)
  }

  /** An assignment was read off a cache of rows that had really been committed. */
  ghost predicate RouteOk(s: State, r: Route) {
    SelectFrom(r.view) == Some(r.service) && R.GenuineCache(s.replicas.history, r.view)
  }

  ghost predicate RoutesOk(s: State) {
    && (forall id | id in s.routes ::
          id in s.payments && s.payments[id].assignment.Some? && RouteOk(s, s.routes[id]))
    && (forall id | id in s.payments && s.payments[id].assignment.Some? ::
          id in s.routes && s.routes[id].service == s.payments[id].assignment.value)
  }

  ghost predicate CompletionOk(s: State, c: Completion) {
    && c.id in s.payments
    && s.payments[c.id].processedBy == Some(c.service)
    && c.amount == s.payments[c.id].amount
    && c.requestedAt == s.payments[c.id].requestedAt
  }

  predicate Logged(log: seq<Completion>, id: Uuid) {
    exists c | c in log :: c.id == id
  }

  ghost predicate LogOk(s: State) {
    && (forall c | c in s.log :: CompletionOk(s, c))
    && (forall j, k | 0 <= j < k < |s.log| :: s.log[j].id != s.log[k].id)
    && (forall id | IsCompleted(s, id) :: Logged(s.log, id))
  }

  ghost predicate AgentsOk(s: State) {
    && (forall d | d in s.dispatchers :: d in s.names && DispatcherOk(s, s.dispatchers[d].pc))
    && (forall w | w in s.workers :: w in s.names && WorkerOk(s, s.workers[w].pc))
  }

  /** Dispatchers and workers run only on instances that finished hydrating. */
  ghost predicate HomesOk(s: State) {
    && (forall d | d in s.dispatchers :: LiveInstance(s, s.dispatchers[d].instance))
    && (forall w | w in s.workers :: LiveInstance(s, s.workers[w].instance))
  }

  ghost predicate ReplicasOk(r: R.State) {
    R.HistoryOk(r) && R.CopiesOk(r) && Recovery.RecoveryOk(r) && Leadership.LeadershipOk(r)
  }

  ghost predicate Inv(s: State) {
    && TablesOk(s.payments, s.outbox)
    && BookOk(s, Default)
    && BookOk(s, Fallback)
    && StreamOk(s)
    && AgentsOk(s)
    && HomesOk(s)
    && RoutesOk(s)
    && LogOk(s)
    && ReplicasOk(s.replicas)
  }

  // ----- Stability of what agents know -----

  lemma DeliveryStable(s: State, s': State, d: Delivery)
    requires Extends(s, s') && DeliveryOk(s, d)
    ensures DeliveryOk(s', d)
  {
  }

  lemma ClaimStable(s: State, s': State, d: Delivery, c: Claim)
    requires Extends(s, s') && ClaimOk(s, d, c)
    ensures ClaimOk(s', d, c)
  {
  }

  lemma CompletedStable(s: State, s': State, id: Uuid)
    requires Extends(s, s') && IsCompleted(s, id)
    ensures IsCompleted(s', id) && s'.payments[id] == s.payments[id]
  {
  }

  lemma GenuineCacheStable(s: State, s': State, view: Cache)
    requires Extends(s, s') && R.GenuineCache(s.replicas.history, view)
    ensures R.GenuineCache(s'.replicas.history, view)
  {
  }

  lemma WorkerStable(s: State, s': State, pc: WorkerPc)
    requires Extends(s, s') && WorkerOk(s, pc)
    ensures WorkerOk(s', pc)
  {
    if !pc.Idle? {
      DeliveryStable(s, s', pc.d);
    }
    match pc
    case Idle =>
    case Fetched(d) =>
    case Selected(d, selected, view) => GenuineCacheStable(s, s', view);
    case Claimed(d, c) => ClaimStable(s, s', d, c);
    case Submitting(d, c, _) => ClaimStable(s, s', d, c);
    case Failing(d, c) => ClaimStable(s, s', d, c);
    case Releasing(d, c) => ClaimStable(s, s', d, c);
    case Confirmed(d, c) => ClaimStable(s, s', d, c);
    case Acking(d) => CompletedStable(s, s', d.id);
    case Naking(d) =>
  }

  lemma DispatcherStable(s: State, s': State, pc: DispatcherPc)
    requires Extends(s, s') && DispatcherOk(s, pc)
    ensures DispatcherOk(s', pc)
  {
  }

  lemma ExtendsReflexive(s: State)
    ensures Extends(s, s)
  {
  }

  lemma ExtendsTransitive(s: State, s1: State, s2: State)
    requires Extends(s, s1) && Extends(s1, s2)
    ensures Extends(s, s2)
  {
  }

  // ----- Every step extends -----

  lemma DispatcherStepExtends(s: State, d: Owner, step: DispatcherStep)
    requires Enabled(s, DispatcherDoes(d, step)) && TablesOk(s.payments, s.outbox)
    ensures Extends(s, DispatcherDo(s, d, step))
  {
    var id := if step.ClaimRow? then step.id else s.dispatchers[d].pc.id;
    OutboxStatementsKeep(s.payments, s.outbox, id, d, s.clock, s.cfg.outboxExpiry);
  }

  lemma ClaimExtends(s: State, w: Owner, outcome: CallOutcome)
    requires Enabled(s, WorkerDoes(w, ClaimIt(outcome))) && TablesOk(s.payments, s.outbox) && RoutesOk(s)
    ensures Extends(s, ClaimDo(s, w, outcome))
  {
    ClaimExtendsPayments(s, w, outcome);
    ClaimExtendsRoutes(s, w, outcome);
    var s' := ClaimDo(s, w, outcome);
    assert s'.stream == s.stream && s'.books == s.books && s'.replicas == s.replicas && s'.log == s.log;
    assert s'.outbox == s.outbox && s'.names == s.names && s'.cfg == s.cfg;
  }

  lemma ClaimExtendsPayments(s: State, w: Owner, outcome: CallOutcome)
    requires Enabled(s, WorkerDoes(w, ClaimIt(outcome))) && TablesOk(s.payments, s.outbox)
    ensures PaymentsExtend(s.payments, ClaimDo(s, w, outcome).payments)
  {
    var pc := s.workers[w].pc;
    ClaimKeeps(s.payments, s.outbox, pc.d.id, w, s.clock, s.cfg.claimExpiry, pc.selected);
  }

  lemma ClaimExtendsRoutes(s: State, w: Owner, outcome: CallOutcome)
    requires Enabled(s, WorkerDoes(w, ClaimIt(outcome)))
    requires var id := s.workers[w].pc.d.id;
             id in s.routes ==> id in s.payments && s.payments[id].assignment.Some?
    ensures MapExtends(s.routes, ClaimDo(s, w, outcome).routes)
  {
  }

  lemma SubmitExtends(s: State, w: Owner)
    requires Enabled(s, WorkerDoes(w, Submit))
    requires ClaimOk(s, s.workers[w].pc.d, s.workers[w].pc.claim)
    requires BookOk(s, s.workers[w].pc.claim.payment.assignment)
    ensures Extends(s, WorkerDo(s, w, Submit))
  {
    var p := s.workers[w].pc.claim.payment;
    assert p.id in s.books.Of(p.assignment).sent ==>
        s.books.Of(p.assignment).sent[p.id] == Entry(p.amount, p.requestedAt);
    assert BookExtends(s.books.Of(p.assignment), WorkerDo(s, w, Submit).books.Of(p.assignment));
  }

  lemma ReportExtends(s: State, w: Owner, outcome: CallOutcome)
    requires Enabled(s, WorkerDoes(w, ReportFailure(outcome))) && R.HistoryOk(s.replicas)
    ensures Extends(s, WorkerDo(s, w, ReportFailure(outcome)))
  {
    if !outcome.LostUnapplied? {
      var p := s.workers[w].pc.claim.payment.assignment;
      R.StepKeepsHistory(s.replicas, R.Passive(s.workers[w].instance, p, outcome.Replied?), s.clock);
    }
  }

  lemma ReleaseExtends(s: State, w: Owner, applied: bool)
    requires Enabled(s, WorkerDoes(w, Release(applied))) && TablesOk(s.payments, s.outbox)
    ensures Extends(s, WorkerDo(s, w, Release(applied)))
  {
    ReleaseKeeps(s.payments, s.outbox, s.workers[w].pc.d.id, w);
  }

  lemma CompleteExtends(s: State, w: Owner, outcome: CallOutcome)
    requires Enabled(s, WorkerDoes(w, Complete(outcome))) && TablesOk(s.payments, s.outbox)
    ensures Extends(s, CompleteDo(s, w, outcome))
  {
    var p := s.workers[w].pc.claim.payment;
    CompleteKeeps(s.payments, s.outbox, p.id, w, s.workers[w].instance, p.assignment, s.clock);
  }

  /** Steps that touch neither a table, a processor, a cache nor the history. */
  lemma LocalStepExtends(s: State, w: Owner, step: WorkerStep)
    requires Enabled(s, WorkerDoes(w, step))
    requires step.Fetch? || step.Select? || step.Hear? || step.Ack? || step.Nak?
    ensures Extends(s, WorkerDo(s, w, step))
  {
  }

  lemma WorkerStepExtends(s: State, w: Owner, step: WorkerStep)
    requires Enabled(s, WorkerDoes(w, step))
    requires TablesOk(s.payments, s.outbox) && RoutesOk(s) && BookOk(s, Default) && BookOk(s, Fallback)
    requires R.HistoryOk(s.replicas) && WorkerOk(s, s.workers[w].pc)
    ensures Extends(s, WorkerDo(s, w, step))
  {
    match step
    case ClaimIt(outcome) => ClaimExtends(s, w, outcome);
    case Submit => SubmitExtends(s, w);
    case ReportFailure(outcome) => ReportExtends(s, w, outcome);
    case Release(applied) => ReleaseExtends(s, w, applied);
    case Complete(outcome) => CompleteExtends(s, w, outcome);
    case _ => LocalStepExtends(s, w, step);
  }

  lemma AcceptExtends(s: State, id: Uuid, amount: int)
    requires TablesOk(s.payments, s.outbox)
    ensures Extends(s, Do(s, Accept(id, amount)))
  {
    AcceptKeeps(s.payments, s.outbox, id, amount, s.clock);
  }

  lemma RecordExtends(s: State, p: Processor, id: Uuid)
    requires Enabled(s, Record(p, id))
    ensures Extends(s, RecordDo(s, p, id))
  {
    var s' := RecordDo(s, p, id);
    assert BookExtends(s.books.Of(p), s'.books.Of(p));
    assert s' == s.(books := s'.books);
    assert s'.books == s.books.With(p, s'.books.Of(p));
  }

  lemma ReplicateExtends(s: State, r: R.Label)
    requires Enabled(s, Replicate(r)) && R.HistoryOk(s.replicas)
    ensures Extends(s, Replicated(s, r))
  {
    R.StepKeepsHistory(s.replicas, r, s.clock);
  }

  lemma ComingAndGoingExtends(s: State, l: Label)
    requires Enabled(s, l) && (l.Tick? || l.StartDispatcher? || l.StartWorker? || l.Crash?)
    ensures Extends(s, Do(s, l))
  {
  }

  lemma StepExtends(s: State, l: Label)
    requires Enabled(s, l)
    requires TablesOk(s.payments, s.outbox) && RoutesOk(s) && BookOk(s, Default) && BookOk(s, Fallback)
    requires R.HistoryOk(s.replicas)
    requires l.WorkerDoes? ==> WorkerOk(s, s.workers[l.w].pc)
    ensures Extends(s, Do(s, l))
  {
    match l
    case DispatcherDoes(d, step) => DispatcherStepExtends(s, d, step);
    case WorkerDoes(w, step) => WorkerStepExtends(s, w, step);
    case Accept(id, amount) => AcceptExtends(s, id, amount);
    case Record(p, id) => RecordExtends(s, p, id);
    case Replicate(r) => ReplicateExtends(s, r);
    case _ => ComingAndGoingExtends(s, l);
  }
}

/** Every step keeps the invariant, one conjunct at a time. */
module Preservation {
  import opened Domain
  import opened Tables
  import opened Routing
  import opened System
  import opened Invariants
  import R = Replication
  import Convergence
  import Recovery
  import Leadership

  // ----- Which steps touch the payments table -----

  predicate IsComplete(l: Label) {
    l.WorkerDoes? && l.wstep.Complete?
  }

  predicate TouchesPayments(l: Label) {
    l.Accept? || (l.WorkerDoes? && (l.wstep.ClaimIt? || l.wstep.Release? || l.wstep.Complete?))
  }

  lemma WorkerMovesAlone(s: State, w: Owner, step: WorkerStep)
    requires Enabled(s, WorkerDoes(w, step))
    ensures var s' := WorkerDo(s, w, step);
            && s'.workers == s.workers[w := s'.workers[w]]
            && s'.workers[w].instance == s.workers[w].instance
            && s'.dispatchers == s.dispatchers && s'.names == s.names && s'.outbox == s.outbox
            && s'.cfg == s.cfg && s'.clock == s.clock
  {
    match step
    case ClaimIt(outcome) => assert WorkerDo(s, w, step) == ClaimDo(s, w, outcome);
    case Complete(outcome) => assert WorkerDo(s, w, step) == CompleteDo(s, w, outcome);
    case _ => PlainStepMovesAlone(s, w, step);
  }

  lemma PlainStepMovesAlone(s: State, w: Owner, step: WorkerStep)
    requires Enabled(s, WorkerDoes(w, step)) && !step.ClaimIt? && !step.Complete?
    ensures var s' := WorkerDo(s, w, step);
            && s'.workers == s.workers[w := s'.workers[w]]
            && s'.workers[w].instance == s.workers[w].instance
            && s'.dispatchers == s.dispatchers && s'.names == s.names && s'.outbox == s.outbox
            && s'.cfg == s.cfg && s'.clock == s.clock
  {
  }

  lemma DispatcherMovesAlone(s: State, d: Owner, step: DispatcherStep)
    requires Enabled(s, DispatcherDoes(d, step))
    ensures var s' := DispatcherDo(s, d, step);
            && s'.dispatchers == s.dispatchers[d := s'.dispatchers[d]]
            && s'.dispatchers[d].instance == s.dispatchers[d].instance
            && s'.workers == s.workers && s'.names == s.names
            && s'.cfg == s.cfg && s'.clock == s.clock
  {
  }

  lemma UntouchedByWorker(s: State, w: Owner, step: WorkerStep)
    requires Enabled(s, WorkerDoes(w, step)) && !TouchesPayments(WorkerDoes(w, step))
    ensures WorkerDo(s, w, step).payments == s.payments && WorkerDo(s, w, step).log == s.log
    ensures WorkerDo(s, w, step).routes == s.routes
  {
  }

  lemma Untouched(s: State, l: Label)
    requires Enabled(s, l) && !TouchesPayments(l)
    ensures Do(s, l).payments == s.payments && Do(s, l).log == s.log && Do(s, l).routes == s.routes
  {
    if l.WorkerDoes? {
      UntouchedByWorker(s, l.w, l.wstep);
    }
  }

  // ----- Tables -----

  lemma TablesKept(s: State, l: Label)
    requires Enabled(s, l) && TablesOk(s.payments, s.outbox)
    ensures TablesOk(Do(s, l).payments, Do(s, l).outbox)
  {
    match l
    case Accept(id, amount) => AcceptKeeps(s.payments, s.outbox, id, amount, s.clock);
    case DispatcherDoes(d, step) =>
      var id := if step.ClaimRow? then step.id else s.dispatchers[d].pc.id;
      OutboxStatementsKeep(s.payments, s.outbox, id, d, s.clock, s.cfg.outboxExpiry);
    case WorkerDoes(w, step) => WorkerTablesKept(s, w, step);
    case _ =>
  }

  lemma WorkerTablesKept(s: State, w: Owner, step: WorkerStep)
    requires Enabled(s, WorkerDoes(w, step)) && TablesOk(s.payments, s.outbox)
    ensures TablesOk(WorkerDo(s, w, step).payments, WorkerDo(s, w, step).outbox)
  {
    var pc := s.workers[w].pc;
    match step
    case ClaimIt(outcome) =>
      ClaimKeeps(s.payments, s.outbox, pc.d.id, w, s.clock, s.cfg.claimExpiry, pc.selected);
    case Release(applied) => ReleaseKeeps(s.payments, s.outbox, pc.d.id, w);
    case Complete(outcome) =>
      var p := pc.claim.payment;
      CompleteKeeps(s.payments, s.outbox, p.id, w, s.workers[w].instance, p.assignment, s.clock);
    case _ =>
  }

  // ----- Processors -----

  /** Nothing a book relies on changes when rows only extend and only recorded
      payments become processed. */
  lemma BookStable(s: State, s': State, p: Processor)
    requires Extends(s, s') && BookOk(s, p) && s'.books.Of(p) == s.books.Of(p)
    requires forall id | id in s'.payments && s'.payments[id].processedBy == Some(p) ::
               id in s.books.Of(p).recorded
    ensures BookOk(s', p)
  {
  }

  lemma SubmitKeepsBook(s: State, w: Owner, p: Processor)
    requires Enabled(s, WorkerDoes(w, Submit)) && BookOk(s, p)
    requires ClaimOk(s, s.workers[w].pc.d, s.workers[w].pc.claim)
    ensures BookOk(WorkerDo(s, w, Submit), p)
  {
    var s' := WorkerDo(s, w, Submit);
    var q := s.workers[w].pc.claim.payment;
    if p == q.assignment {
      assert s'.books.Of(p).sent == s.books.Of(p).sent[q.id := Entry(q.amount, q.requestedAt)];
      assert q.id in s.books.Of(p).sent ==> s.books.Of(p).sent[q.id] == Entry(q.amount, q.requestedAt);
    } else {
      assert s'.books.Of(p) == s.books.Of(p);
    }
  }

  lemma RecordKeepsBook(s: State, q: Processor, id: Uuid, p: Processor)
    requires Enabled(s, Record(q, id)) && BookOk(s, p)
    ensures BookOk(RecordDo(s, q, id), p)
  {
    var s' := RecordDo(s, q, id);
    if p != q {
      assert s'.books.Of(p) == s.books.Of(p);
    } else {
      RecordingExtends(s.books.Of(p), s'.books.Of(p), id);
    }
    RecordingKeeps(s, s', p);
  }

  lemma RecordingExtends(b: Book, b': Book, id: Uuid)
    requires MapExtends(b.recorded, b.sent) && id in b.sent
    requires b' == b || (id !in b.recorded && b' == b.(recorded := b.recorded[id := b.sent[id]]))
    ensures MapExtends(b.recorded, b'.recorded) && MapExtends(b'.recorded, b'.sent)
  {
  }

  lemma RecordingKeeps(s: State, s': State, p: Processor)
    requires BookOk(s, p) && s'.payments == s.payments && s'.books.Of(p).sent == s.books.Of(p).sent
    requires MapExtends(s.books.Of(p).recorded, s'.books.Of(p).recorded)
    requires MapExtends(s'.books.Of(p).recorded, s'.books.Of(p).sent)
    ensures BookOk(s', p)
  {
  }

  lemma OnlyCompletionProcesses(s: State, l: Label, id: Uuid)
    requires Enabled(s, l) && !IsComplete(l)
    requires id in Do(s, l).payments && Do(s, l).payments[id].processedBy.Some?
    ensures id in s.payments && s.payments[id].processedBy == Do(s, l).payments[id].processedBy
  {
    if l.Accept? || !TouchesPayments(l) {
      if !l.Accept? {
        Untouched(s, l);
      }
    } else if l.wstep.ClaimIt? {
      assert Do(s, l) == ClaimDo(s, l.w, l.wstep.outcome);
    } else {
      assert l.wstep.Release?;
    }
  }

  /** A completion marks only a payment its worker saw confirmed. */
  lemma NewlyProcessedIsRecorded(s: State, w: Owner, outcome: CallOutcome, id: Uuid, p: Processor)
    requires Enabled(s, WorkerDoes(w, Complete(outcome))) && BookOk(s, p) && WorkerOk(s, s.workers[w].pc)
    requires id in CompleteDo(s, w, outcome).payments && CompleteDo(s, w, outcome).payments[id].processedBy == Some(p)
    ensures id in s.books.Of(p).recorded
  {
  }

  lemma OtherStepsKeepBook(s: State, l: Label, p: Processor)
    requires Enabled(s, l) && Extends(s, Do(s, l)) && BookOk(s, p)
    requires Do(s, l).books.Of(p) == s.books.Of(p)
    requires l.WorkerDoes? ==> WorkerOk(s, s.workers[l.w].pc)
    ensures BookOk(Do(s, l), p)
  {
    forall id | id in Do(s, l).payments && Do(s, l).payments[id].processedBy == Some(p)
      ensures id in s.books.Of(p).recorded
    {
      if IsComplete(l) {
        NewlyProcessedIsRecorded(s, l.w, l.wstep.outcome, id, p);
      } else {
        OnlyCompletionProcesses(s, l, id);
      }
    }
    BookStable(s, Do(s, l), p);
  }

  lemma BooksUntouched(s: State, l: Label, p: Processor)
    requires Enabled(s, l) && !l.Record? && !(l.WorkerDoes? && l.wstep.Submit?)
    ensures Do(s, l).books == s.books
  {
    if l.WorkerDoes? {
      WorkerBooksUntouched(s, l.w, l.wstep);
    } else if l.DispatcherDoes? {
      assert Do(s, l) == DispatcherDo(s, l.d, l.dstep);
    }
  }

  lemma WorkerBooksUntouched(s: State, w: Owner, step: WorkerStep)
    requires Enabled(s, WorkerDoes(w, step)) && !step.Submit?
    ensures WorkerDo(s, w, step).books == s.books
  {
  }

  lemma BookKept(s: State, l: Label, p: Processor)
    requires Enabled(s, l) && Extends(s, Do(s, l)) && BookOk(s, p)
    requires l.WorkerDoes? ==> WorkerOk(s, s.workers[l.w].pc)
    ensures BookOk(Do(s, l), p)
  {
    if l.WorkerDoes? && l.wstep.Submit? {
      SubmitKeepsBook(s, l.w, p);
    } else if l.Record? {
      RecordKeepsBook(s, l.p, l.id, p);
    } else {
      BooksUntouched(s, l, p);
      OtherStepsKeepBook(s, l, p);
    }
  }

  // ----- The stream -----

  /** No message of an uncompleted payment disappears. */
  lemma StreamStable(s: State, s': State)
    requires Extends(s, s') && StreamOk(s) && s'.stream == s.stream
    requires forall id | id in s'.outbox && s'.outbox[id].state.Dispatched? :: id in s.stream.stored
    ensures StreamOk(s')
  {
  }

  lemma PublishKeepsStream(s: State, d: Owner, stored: bool, acked: bool)
    requires Enabled(s, DispatcherDoes(d, Publish(stored, acked))) && StreamOk(s) && TablesOk(s.payments, s.outbox)
    requires DispatcherOk(s, s.dispatchers[d].pc)
    ensures StreamOk(DispatcherDo(s, d, Publish(stored, acked)))
  {
    var t' := DispatcherDo(s, d, Publish(stored, acked)).stream;
    if stored {
      forall id | id in t'.stored
        ensures IsCompleted(s, id) || HasMessage(t', id)
      {
        if id == s.dispatchers[d].pc.id {
          assert t'.messages[s.stream.last + 1] == id;
        } else if HasMessage(s.stream, id) {
          var k :| k in s.stream.messages && s.stream.messages[k] == id;
          assert t'.messages[k] == id;
        }
      }
    }
  }

  lemma AckKeepsStream(s: State, w: Owner, applied: bool)
    requires Enabled(s, WorkerDoes(w, Ack(applied))) && StreamOk(s) && WorkerOk(s, s.workers[w].pc)
    ensures StreamOk(WorkerDo(s, w, Ack(applied)))
  {
    var d := s.workers[w].pc.d;
    var t' := WorkerDo(s, w, Ack(applied)).stream;
    forall id | id in t'.stored
      ensures IsCompleted(s, id) || HasMessage(t', id)
    {
      if !IsCompleted(s, id) {
        var k :| k in s.stream.messages && s.stream.messages[k] == id;
        assert k in t'.messages;
      }
    }
  }

  /** Only a marking dispatcher dispatches a row, and it holds an acknowledgement. */
  lemma NewlyDispatchedIsStored(s: State, l: Label, id: Uuid)
    requires Enabled(s, l) && StreamOk(s)
    requires l.DispatcherDoes? ==> DispatcherOk(s, s.dispatchers[l.d].pc)
    requires id in Do(s, l).outbox && Do(s, l).outbox[id].state.Dispatched?
    ensures id in s.stream.stored
  {
    if !l.DispatcherDoes? && !l.Accept? {
      OutboxUntouched(s, l);
    }
  }

  lemma OutboxUntouched(s: State, l: Label)
    requires Enabled(s, l) && !l.Accept? && !l.DispatcherDoes?
    ensures Do(s, l).outbox == s.outbox
  {
    if l.WorkerDoes? {
      WorkerMovesAlone(s, l.w, l.wstep);
    }
  }

  lemma StreamUntouched(s: State, l: Label)
    requires Enabled(s, l)
    requires !(l.DispatcherDoes? && l.dstep.Publish?) && !(l.WorkerDoes? && l.wstep.Ack?)
    ensures Do(s, l).stream == s.stream
  {
    if l.WorkerDoes? {
      WorkerStreamUntouched(s, l.w, l.wstep);
    }
  }

  lemma WorkerStreamUntouched(s: State, w: Owner, step: WorkerStep)
    requires Enabled(s, WorkerDoes(w, step)) && !step.Ack?
    ensures WorkerDo(s, w, step).stream == s.stream
  {
  }

  lemma StreamKept(s: State, l: Label)
    requires Enabled(s, l) && Extends(s, Do(s, l)) && StreamOk(s) && TablesOk(s.payments, s.outbox)
    requires l.WorkerDoes? ==> WorkerOk(s, s.workers[l.w].pc)
    requires l.DispatcherDoes? ==> DispatcherOk(s, s.dispatchers[l.d].pc)
    ensures StreamOk(Do(s, l))
  {
    if l.DispatcherDoes? && l.dstep.Publish? {
      PublishKeepsStream(s, l.d, l.dstep.stored, l.dstep.acked);
    } else if l.WorkerDoes? && l.wstep.Ack? {
      AckKeepsStream(s, l.w, l.wstep.applied);
    } else {
      StreamUntouched(s, l);
      forall id | id in Do(s, l).outbox && Do(s, l).outbox[id].state.Dispatched?
        ensures id in s.stream.stored
      {
        NewlyDispatchedIsStored(s, l, id);
      }
      StreamStable(s, Do(s, l));
    }
  }

  // ----- Agents -----

  /** The stepping worker's new place in its loop is justified. */
  lemma ClaimingWorkerOk(s: State, w: Owner, outcome: CallOutcome)
    requires Enabled(s, WorkerDoes(w, ClaimIt(outcome))) && TablesOk(s.payments, s.outbox)
    requires WorkerOk(s, s.workers[w].pc)
    ensures WorkerOk(ClaimDo(s, w, outcome), ClaimDo(s, w, outcome).workers[w].pc)
  {
    var pc := s.workers[w].pc;
    ClaimAnswersExactly(s.payments, pc.d.id, s.clock, pc.selected);
  }

  lemma CompletingWorkerOk(s: State, w: Owner, outcome: CallOutcome)
    requires Enabled(s, WorkerDoes(w, Complete(outcome))) && WorkerOk(s, s.workers[w].pc)
    ensures WorkerOk(CompleteDo(s, w, outcome), CompleteDo(s, w, outcome).workers[w].pc)
  {
  }

  lemma SelectingWorkerOk(s: State, w: Owner)
    requires Enabled(s, WorkerDoes(w, Select)) && WorkerOk(s, s.workers[w].pc) && R.CopiesOk(s.replicas)
    ensures WorkerOk(WorkerDo(s, w, Select), WorkerDo(s, w, Select).workers[w].pc)
  {
  }

  lemma SubmittingWorkerOk(s: State, w: Owner)
    requires Enabled(s, WorkerDoes(w, Submit)) && WorkerOk(s, s.workers[w].pc)
    ensures WorkerOk(WorkerDo(s, w, Submit), WorkerDo(s, w, Submit).workers[w].pc)
  {
  }

  lemma OtherWorkerStepOk(s: State, w: Owner, step: WorkerStep)
    requires Enabled(s, WorkerDoes(w, step)) && WorkerOk(s, s.workers[w].pc) && StreamOk(s)
    requires Extends(s, WorkerDo(s, w, step))
    requires step.Fetch? || step.Hear? || step.ReportFailure? || step.Release? || step.Ack? || step.Nak?
    ensures WorkerOk(WorkerDo(s, w, step), WorkerDo(s, w, step).workers[w].pc)
  {
    var pc' := WorkerDo(s, w, step).workers[w].pc;
    assert WorkerOk(s, pc');
    WorkerStable(s, WorkerDo(s, w, step), pc');
  }

  lemma SteppedWorkerOk(s: State, w: Owner, step: WorkerStep)
    requires Enabled(s, WorkerDoes(w, step)) && TablesOk(s.payments, s.outbox)
    requires WorkerOk(s, s.workers[w].pc) && StreamOk(s) && R.CopiesOk(s.replicas)
    requires Extends(s, WorkerDo(s, w, step))
    ensures WorkerOk(WorkerDo(s, w, step), WorkerDo(s, w, step).workers[w].pc)
  {
    match step
    case ClaimIt(outcome) => ClaimingWorkerOk(s, w, outcome);
    case Complete(outcome) => CompletingWorkerOk(s, w, outcome);
    case Select => SelectingWorkerOk(s, w);
    case Submit => SubmittingWorkerOk(s, w);
    case _ => OtherWorkerStepOk(s, w, step);
  }

  lemma SteppedDispatcherOk(s: State, d: Owner, step: DispatcherStep)
    requires Enabled(s, DispatcherDoes(d, step)) && DispatcherOk(s, s.dispatchers[d].pc)
    ensures DispatcherOk(DispatcherDo(s, d, step), DispatcherDo(s, d, step).dispatchers[d].pc)
  {
  }

  /** Everybody else stays where they were, or is gone. */
  lemma OtherWorkerUnmoved(s: State, l: Label, w: Owner)
    requires Enabled(s, l) && w in Do(s, l).workers && !(l.WorkerDoes? && l.w == w)
    requires w in s.workers ==> w in s.names
    ensures if w in s.workers then Do(s, l).workers[w] == s.workers[w]
            else Do(s, l).workers[w].pc.Idle? && w in Do(s, l).names
  {
    match l
    case WorkerDoes(v, step) => WorkerMovesAlone(s, v, step);
    case DispatcherDoes(d, step) => DispatcherMovesAlone(s, d, step);
    case _ =>
  }

  lemma OtherDispatcherUnmoved(s: State, l: Label, d: Owner)
    requires Enabled(s, l) && d in Do(s, l).dispatchers && !(l.DispatcherDoes? && l.d == d)
    requires d in s.dispatchers ==> d in s.names
    ensures if d in s.dispatchers then Do(s, l).dispatchers[d] == s.dispatchers[d]
            else Do(s, l).dispatchers[d].pc.Seeking? && d in Do(s, l).names
  {
    match l
    case WorkerDoes(v, step) => WorkerMovesAlone(s, v, step);
    case DispatcherDoes(e, step) => DispatcherMovesAlone(s, e, step);
    case _ =>
  }

  lemma AgentsKept(s: State, l: Label)
    requires Enabled(s, l) && Extends(s, Do(s, l)) && AgentsOk(s) && TablesOk(s.payments, s.outbox)
    requires StreamOk(s) && R.CopiesOk(s.replicas)
    ensures AgentsOk(Do(s, l))
  {
    var s' := Do(s, l);
    forall w | w in s'.workers
      ensures w in s'.names && WorkerOk(s', s'.workers[w].pc)
    {
      if l.WorkerDoes? && l.w == w {
        SteppedWorkerOk(s, w, l.wstep);
      } else {
        OtherWorkerUnmoved(s, l, w);
      }
      if w in s.workers && s'.workers[w] == s.workers[w] {
        WorkerStable(s, s', s.workers[w].pc);
      }
    }
    forall d | d in s'.dispatchers
      ensures d in s'.names && DispatcherOk(s', s'.dispatchers[d].pc)
    {
      if l.DispatcherDoes? && l.d == d {
        SteppedDispatcherOk(s, d, l.dstep);
      } else {
        OtherDispatcherUnmoved(s, l, d);
      }
      if d in s.dispatchers && s'.dispatchers[d] == s.dispatchers[d] {
        DispatcherStable(s, s', s.dispatchers[d].pc);
      }
    }
  }

  lemma LiveStaysLive(s: State, l: Label, i: Instance)
    requires Enabled(s, l) && LiveInstance(s, i) && !(l.Replicate? && l.l == R.Stop(i))
    ensures LiveInstance(Do(s, l), i)
  {
    ReplicaStep(s, l);
    var r := ReplicaLabel(s, l);
    if r.Some? {
      NodeStaysLive(s.replicas, r.value, s.clock, i);
    }
  }

  lemma NodeStaysLive(r: R.State, l: R.Label, now: Time, i: Instance)
    requires R.Enabled(r, l) && i in r.nodes && r.nodes[i].phase.Live? && l != R.Stop(i)
    ensures i in R.Do(r, l, now).nodes && R.Do(r, l, now).nodes[i].phase.Live?
  {
  }

  lemma WorkerHomeKept(s: State, l: Label, w: Owner)
    requires Enabled(s, l) && HomesOk(s) && w in Do(s, l).workers
    ensures LiveInstance(Do(s, l), Do(s, l).workers[w].instance)
  {
    var i := Do(s, l).workers[w].instance;
    match l
    case WorkerDoes(v, step) =>
      WorkerMovesAlone(s, v, step);
      LiveStaysLive(s, l, i);
    case DispatcherDoes(d, step) =>
      DispatcherMovesAlone(s, d, step);
      LiveStaysLive(s, l, i);
    case _ => LiveStaysLive(s, l, i);
  }

  lemma DispatcherHomeKept(s: State, l: Label, d: Owner)
    requires Enabled(s, l) && HomesOk(s) && d in Do(s, l).dispatchers
    ensures LiveInstance(Do(s, l), Do(s, l).dispatchers[d].instance)
  {
    var i := Do(s, l).dispatchers[d].instance;
    match l
    case WorkerDoes(v, step) =>
      WorkerMovesAlone(s, v, step);
      LiveStaysLive(s, l, i);
    case DispatcherDoes(e, step) =>
      DispatcherMovesAlone(s, e, step);
      LiveStaysLive(s, l, i);
    case _ => LiveStaysLive(s, l, i);
  }

  lemma HomesKept(s: State, l: Label)
    requires Enabled(s, l) && HomesOk(s)
    ensures HomesOk(Do(s, l))
  {
    forall w | w in Do(s, l).workers
      ensures LiveInstance(Do(s, l), Do(s, l).workers[w].instance)
    {
      WorkerHomeKept(s, l, w);
    }
    forall d | d in Do(s, l).dispatchers
      ensures LiveInstance(Do(s, l), Do(s, l).dispatchers[d].instance)
    {
      DispatcherHomeKept(s, l, d);
    }
  }

  // ----- Routes -----

  lemma RoutesStable(s: State, s': State)
    requires Extends(s, s') && RoutesOk(s) && s'.routes == s.routes
    requires forall id | id in s'.payments && s'.payments[id].assignment.Some? ::
               id in s.payments && s.payments[id].assignment.Some?
    ensures RoutesOk(s')
  {
    forall id | id in s'.routes
      ensures id in s'.payments && s'.payments[id].assignment.Some? && RouteOk(s', s'.routes[id])
    {
      assert RowExtends(s.payments[id], s'.payments[id]);
      GenuineCacheStable(s, s', s.routes[id].view);
    }
    forall id | id in s'.payments && s'.payments[id].assignment.Some?
      ensures id in s'.routes && s'.routes[id].service == s'.payments[id].assignment.value
    {
      assert RowExtends(s.payments[id], s'.payments[id]);
    }
  }

  /** A first assignment takes the selection of this worker, and the cache it read is
      kept with it; every assignment made before stays, with its cache. */
  ghost predicate ClaimRoutesOnce(s: State, w: Owner, s': State)
    requires w in s.workers && s.workers[w].pc.Selected?
  {
    var pc := s.workers[w].pc;
    && (forall id | FirstAssignment(s.payments, s'.payments, id) ::
          && id == pc.d.id && pc.selected == s'.payments[id].assignment
          && id in s'.routes && s'.routes[id] == Route(pc.selected.value, pc.view))
    && (forall id | id in s.payments && s.payments[id].assignment.Some? ::
          && id in s'.payments && s'.payments[id].assignment == s.payments[id].assignment
          && (id in s.routes ==> id in s'.routes && s'.routes[id] == s.routes[id]))
  }

  /** A first assignment is the selection this worker read off its instance's cache. */
  lemma ClaimKeepsRoutes(s: State, w: Owner, outcome: CallOutcome)
    requires Enabled(s, WorkerDoes(w, ClaimIt(outcome))) && RoutesOk(s)
    requires WorkerOk(s, s.workers[w].pc)
    ensures RoutesOk(ClaimDo(s, w, outcome))
    ensures ClaimRoutesOnce(s, w, ClaimDo(s, w, outcome))
  {
    var s' := ClaimDo(s, w, outcome);
    assert s'.replicas == s.replicas;
    forall id | id in s'.routes
      ensures id in s'.payments && s'.payments[id].assignment.Some? && RouteOk(s', s'.routes[id])
    {
      ClaimKeepsRoute(s, w, outcome, id);
    }
    forall id | id in s'.payments && s'.payments[id].assignment.Some?
      ensures id in s'.routes && s'.routes[id].service == s'.payments[id].assignment.value
    {
      ClaimRoutesAssigned(s, w, outcome, id);
    }
    ClaimRoutes(s, w, outcome);
  }

  lemma ClaimRoutes(s: State, w: Owner, outcome: CallOutcome)
    requires Enabled(s, WorkerDoes(w, ClaimIt(outcome)))
    ensures ClaimRoutesOnce(s, w, ClaimDo(s, w, outcome))
  {
  }

  lemma ClaimKeepsRoute(s: State, w: Owner, outcome: CallOutcome, id: Uuid)
    requires Enabled(s, WorkerDoes(w, ClaimIt(outcome))) && WorkerOk(s, s.workers[w].pc)
    requires id in s.routes ==> id in s.payments && s.payments[id].assignment.Some? && RouteOk(s, s.routes[id])
    requires id in ClaimDo(s, w, outcome).routes
    ensures var s' := ClaimDo(s, w, outcome);
            id in s'.payments && s'.payments[id].assignment.Some? && RouteOk(s', s'.routes[id])
  {
  }

  lemma ClaimRoutesAssigned(s: State, w: Owner, outcome: CallOutcome, id: Uuid)
    requires Enabled(s, WorkerDoes(w, ClaimIt(outcome)))
    requires id in s.payments && s.payments[id].assignment.Some? ==>
               id in s.routes && s.routes[id].service == s.payments[id].assignment.value
    requires id in ClaimDo(s, w, outcome).payments && ClaimDo(s, w, outcome).payments[id].assignment.Some?
    ensures var s' := ClaimDo(s, w, outcome);
            id in s'.routes && s'.routes[id].service == s'.payments[id].assignment.value
  {
  }

  lemma AssignmentsUntouched(s: State, l: Label, id: Uuid)
    requires Enabled(s, l) && !(l.WorkerDoes? && l.wstep.ClaimIt?)
    requires id in Do(s, l).payments && Do(s, l).payments[id].assignment.Some?
    ensures id in s.payments && s.payments[id].assignment.Some?
  {
    if !TouchesPayments(l) {
      Untouched(s, l);
    } else if l.WorkerDoes? {
      AssignmentsUntouchedByWorker(s, l.w, l.wstep, id);
    }
  }

  lemma AssignmentsUntouchedByWorker(s: State, w: Owner, step: WorkerStep, id: Uuid)
    requires Enabled(s, WorkerDoes(w, step)) && (step.Release? || step.Complete?)
    requires id in WorkerDo(s, w, step).payments && WorkerDo(s, w, step).payments[id].assignment.Some?
    ensures id in s.payments && s.payments[id].assignment.Some?
  {
  }

  lemma RoutesUntouched(s: State, l: Label)
    requires Enabled(s, l) && !(l.WorkerDoes? && l.wstep.ClaimIt?)
    ensures Do(s, l).routes == s.routes
  {
    if !TouchesPayments(l) {
      Untouched(s, l);
    }
  }

  lemma RoutesKept(s: State, l: Label)
    requires Enabled(s, l) && Extends(s, Do(s, l)) && RoutesOk(s)
    requires l.WorkerDoes? ==> WorkerOk(s, s.workers[l.w].pc)
    ensures RoutesOk(Do(s, l))
  {
    if l.WorkerDoes? && l.wstep.ClaimIt? {
      ClaimKeepsRoutes(s, l.w, l.wstep.outcome);
    } else {
      RoutesUntouched(s, l);
      forall id | id in Do(s, l).payments && Do(s, l).payments[id].assignment.Some?
        ensures id in s.payments && s.payments[id].assignment.Some?
      {
        AssignmentsUntouched(s, l, id);
      }
      RoutesStable(s, Do(s, l));
    }
  }

  // ----- The completion log -----

  lemma LogStable(s: State, s': State)
    requires Extends(s, s') && LogOk(s) && s'.log == s.log && TablesOk(s.payments, s.outbox)
    requires forall id | IsCompleted(s', id) :: IsCompleted(s, id)
    ensures LogOk(s')
  {
  }

  /** A completion is logged once: the row it completes was not completed before. */
  lemma CompleteKeepsLog(s: State, w: Owner, outcome: CallOutcome)
    requires Enabled(s, WorkerDoes(w, Complete(outcome))) && LogOk(s) && TablesOk(s.payments, s.outbox)
    ensures LogOk(CompleteDo(s, w, outcome))
  {
    var s' := CompleteDo(s, w, outcome);
    var p := s.workers[w].pc.claim.payment;
    if s'.log != s.log {
      var c := s'.log[|s.log|];
      assert s'.log == s.log + [c] && c.id == p.id;
      forall e | e in s.log
        ensures e.id != p.id
      {
        assert CompletionOk(s, e);
      }
      forall id | IsCompleted(s', id)
        ensures Logged(s'.log, id)
      {
        if id == p.id {
          assert c in s'.log;
        } else {
          assert IsCompleted(s, id) && Logged(s.log, id);
          var e :| e in s.log && e.id == id;
          assert e in s'.log;
        }
      }
      forall e | e in s'.log
        ensures CompletionOk(s', e)
      {
        assert e == c || CompletionOk(s, e);
      }
    }
  }

  lemma LogUntouched(s: State, l: Label)
    requires Enabled(s, l) && !IsComplete(l)
    ensures Do(s, l).log == s.log
  {
    if !TouchesPayments(l) {
      Untouched(s, l);
    }
  }

  lemma OnlyCompletionCompletes(s: State, l: Label, id: Uuid)
    requires Enabled(s, l) && !IsComplete(l) && IsCompleted(Do(s, l), id)
    ensures IsCompleted(s, id)
  {
    if !TouchesPayments(l) {
      Untouched(s, l);
    }
  }

  lemma LogKept(s: State, l: Label)
    requires Enabled(s, l) && Extends(s, Do(s, l)) && LogOk(s) && TablesOk(s.payments, s.outbox)
    ensures LogOk(Do(s, l))
  {
    if IsComplete(l) {
      CompleteKeepsLog(s, l.w, l.wstep.outcome);
    } else {
      LogUntouched(s, l);
      forall id | IsCompleted(Do(s, l), id)
        ensures IsCompleted(s, id)
      {
        OnlyCompletionCompletes(s, l, id);
      }
      LogStable(s, Do(s, l));
    }
  }

  // ----- Availability -----

  /** The availability machine sees each step of the system as one of its own, or
      as nothing. */
  function ReplicaLabel(s: State, l: Label): Option<R.Label>
    requires Enabled(s, l)
  {
    match l
    case Replicate(r) => Some(r)
    case WorkerDoes(w, step) =>
      if step.ReportFailure? && !step.outcome.LostUnapplied? then
        Some(R.Passive(s.workers[w].instance, s.workers[w].pc.claim.payment.assignment, step.outcome.Replied?))
      else None
    case _ => None
  }

  lemma ReplicaStep(s: State, l: Label)
    requires Enabled(s, l)
    ensures var r := ReplicaLabel(s, l);
            if r.Some? then R.Enabled(s.replicas, r.value) && Do(s, l).replicas == R.Do(s.replicas, r.value, s.clock)
            else Do(s, l).replicas == s.replicas
  {
    if l.WorkerDoes? {
      WorkerReplicaStep(s, l.w, l.wstep);
    }
  }

  lemma WorkerReplicaStep(s: State, w: Owner, step: WorkerStep)
    requires Enabled(s, WorkerDoes(w, step))
    ensures var r := ReplicaLabel(s, WorkerDoes(w, step));
            if r.Some? then
              R.Enabled(s.replicas, r.value) && WorkerDo(s, w, step).replicas == R.Do(s.replicas, r.value, s.clock)
            else WorkerDo(s, w, step).replicas == s.replicas
  {
  }

  lemma ReplicasKept(s: State, l: Label)
    requires Enabled(s, l) && ReplicasOk(s.replicas)
    ensures ReplicasOk(Do(s, l).replicas)
  {
    ReplicaStep(s, l);
    var r := ReplicaLabel(s, l);
    if r.Some? {
      Convergence.StepKeepsCopies(s.replicas, r.value, s.clock);
      Recovery.StepKeepsRecovery(s.replicas, r.value, s.clock);
      Leadership.StepKeepsLeadership(s.replicas, r.value, s.clock);
    }
  }

  // ----- All of it -----

  lemma InvHolds(s: State, l: Label)
    requires Enabled(s, l) && Inv(s)
    ensures Inv(Do(s, l)) && Extends(s, Do(s, l))
  {
    StepExtends(s, l);
    TablesKept(s, l);
    BookKept(s, l, Default);
    BookKept(s, l, Fallback);
    StreamKept(s, l);
    AgentsKept(s, l);
    HomesKept(s, l);
    RoutesKept(s, l);
    LogKept(s, l);
    ReplicasKept(s, l);
  }

  lemma InitInv(cfg: Config, clock: Time)
    ensures Inv(Init(cfg, clock))
  {
  }

  /** The invariant holds after every run, and no fact is ever undone. */
  lemma {:induction false} RunKeepsInv(s: State, ls: seq<Label>)
    requires Legal(s, ls) && Inv(s)
    ensures Inv(Run(s, ls)) && Extends(s, Run(s, ls))
    decreases ls
  {
    if ls == [] {
      ExtendsReflexive(s);
    } else {
      var s1 := Do(s, ls[0]);
      InvHolds(s, ls[0]);
      RunKeepsInv(s1, ls[1..]);
      ExtendsTransitive(s, s1, Run(s1, ls[1..]));
    }
  }
}

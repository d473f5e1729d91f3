/** From every reachable state some finite continuation finishes all the work. */
module Drain {
  import opened Domain
  import opened Tables
  import opened Routing
  import opened System
  import opened Invariants
  import opened Preservation
  import opened Safety
  import opened Leases
  import R = Replication

  /** Every payment completed, every outbox row dispatched, the stream empty. */
  predicate Drained(s: State) {
    && (forall id | id in s.payments :: s.payments[id].state.Completed?)
    && (forall id | id in s.outbox :: s.outbox[id].state.Dispatched?)
    && s.stream.messages == map[]
  }

  /** A legal continuation that leaves no work, whose clock never goes back and whose
      submissions follow their claims at once. */
  predicate Drains(s: State, more: seq<Label>) {
    Legal(s, more) && Monotone(s, more) && Prompt(s, more, 0) && Drained(Run(s, more))
  }

  // ----- Reaching a state -----

  /** The two statuses by which a processor confirms. */
  type Confirmation = x: int | x == 200 || x == 422 witness 200

  /** If this step hears an answer, it is a response with that status. */
  predicate HearsOnly(l: Label, st: int) {
    l.WorkerDoes? && l.wstep.Hear? ==> l.wstep.answer == Response(st)
  }

  predicate AllHear(ls: seq<Label>, st: int) {
    forall l | l in ls :: HearsOnly(l, st)
  }

  ghost predicate Via(s: State, ls: seq<Label>, s': State, delay: int, st: Confirmation) {
    Legal(s, ls) && Monotone(s, ls) && Prompt(s, ls, delay) && AllHear(ls, st) && Run(s, ls) == s'
  }

  /** Some prompt run, with a clock that never goes back and with answers of status `st`
      alone, leads from `s` to `s'`. */
  ghost predicate Leads(s: State, s': State, st: Confirmation) {
    exists ls :: Via(s, ls, s', 0, st)
  }

  lemma OneStep(s: State, l: Label, delay: int, st: Confirmation)
    requires Enabled(s, l) && ClockForward(s, l) && PromptStep(s, l, delay) && HearsOnly(l, st)
    ensures Via(s, [l], Do(s, l), delay, st)
  {
  }

  lemma Joined(s: State, first: seq<Label>, s1: State, second: seq<Label>, s2: State, delay: int, st: Confirmation)
    requires Via(s, first, s1, delay, st) && Via(s1, second, s2, delay, st)
    ensures Via(s, first + second, s2, delay, st)
  {
    RunConcat(s, first, second);
    PromptConcat(s, first, second, delay);
  }

  lemma LeadsTo(s: State, l: Label, st: Confirmation)
    requires Enabled(s, l) && ClockForward(s, l) && PromptStep(s, l, 0) && HearsOnly(l, st)
    ensures Leads(s, Do(s, l), st)
  {
    OneStep(s, l, 0, st);
  }

  lemma LeadsNowhere(s: State, st: Confirmation)
    ensures Leads(s, s, st)
  {
    assert Via(s, [], s, 0, st);
  }

  lemma LeadsOn(s: State, s1: State, s2: State, st: Confirmation)
    requires Leads(s, s1, st) && Leads(s1, s2, st)
    ensures Leads(s, s2, st)
  {
    var first :| Via(s, first, s1, 0, st);
    var second :| Via(s1, second, s2, 0, st);
    Joined(s, first, s1, second, s2, 0, st);
  }

  lemma LeadsKeepsInv(s: State, s': State, st: Confirmation)
    requires Leads(s, s', st) && Inv(s)
    ensures Inv(s')
  {
    var ls :| Via(s, ls, s', 0, st);
    RunKeepsInv(s, ls);
  }

  /** One legal step, and where it leads. */
  predicate Step(s: State, l: Label, s': State, st: Confirmation) {
    Enabled(s, l) && ClockForward(s, l) && PromptStep(s, l, 0) && HearsOnly(l, st) && Do(s, l) == s'
  }

  lemma Two(s: State, l1: Label, s1: State, l2: Label, s2: State, st: Confirmation)
    requires Step(s, l1, s1, st) && Step(s1, l2, s2, st)
    ensures Leads(s, s2, st)
  {
    LeadsTo(s, l1, st);
    LeadsTo(s1, l2, st);
    LeadsOn(s, s1, s2, st);
  }

  lemma Three(s: State, l1: Label, s1: State, l2: Label, s2: State, l3: Label, s3: State, st: Confirmation)
    requires Step(s, l1, s1, st) && Step(s1, l2, s2, st) && Step(s2, l3, s3, st)
    ensures Leads(s, s3, st)
  {
    Two(s, l1, s1, l2, s2, st);
    LeadsTo(s2, l3, st);
    LeadsOn(s, s2, s3, st);
  }

  lemma Four(s: State, l1: Label, s1: State, l2: Label, s2: State, l3: Label, s3: State, l4: Label, s4: State,
             st: Confirmation)
    requires Step(s, l1, s1, st) && Step(s1, l2, s2, st) && Step(s2, l3, s3, st) && Step(s3, l4, s4, st)
    ensures Leads(s, s4, st)
  {
    Two(s, l1, s1, l2, s2, st);
    Two(s2, l3, s3, l4, s4, st);
    LeadsOn(s, s2, s4, st);
  }

  // ----- Ready to drain -----

  /** Every lease has expired. */
  ghost predicate Expirable(s: State) {
    && (forall id | id in s.payments && s.payments[id].claimExpiresAt.Some? ::
          s.payments[id].claimExpiresAt.value <= s.clock)
    && (forall id | id in s.outbox && s.outbox[id].claimExpiresAt.Some? ::
          s.outbox[id].claimExpiresAt.value <= s.clock)
  }

  /** An idle dispatcher and an idle worker on an instance that can route payments. */
  ghost predicate Crew(s: State, d: Owner, w: Owner) {
    && d in s.dispatchers && s.dispatchers[d].pc.Seeking?
    && w in s.workers && s.workers[w].pc.Idle?
    && LiveInstance(s, s.workers[w].instance)
    && KnownAvailable(s.replicas.nodes[s.workers[w].instance].cache, Default)
  }

  ghost predicate Ready(s: State, d: Owner, w: Owner) {
    Inv(s) && Expirable(s) && Crew(s, d, w)
  }

  // ----- Dispatching -----

  function Undispatched(s: State): set<Uuid> {
    set id | id in s.outbox && !s.outbox[id].state.Dispatched?
  }

  lemma ClaimRowStep(s: State, d: Owner, id: Uuid, st: Confirmation) returns (s': State)
    requires d in s.dispatchers && s.dispatchers[d].pc.Seeking? && id in s.outbox && Dispatchable(s.outbox[id], s.clock)
    ensures Step(s, DispatcherDoes(d, ClaimRow(id, true)), s', st)
    ensures s' == DispatcherAt(s, d, Publishing(id))
                  .(outbox := ClaimedOutbox(s.outbox, id, d, s.clock, s.cfg.outboxExpiry))
  {
    s' := Do(s, DispatcherDoes(d, ClaimRow(id, true)));
  }

  lemma PublishStep(s: State, d: Owner, id: Uuid, st: Confirmation) returns (s': State)
    requires d in s.dispatchers && s.dispatchers[d].pc == Publishing(id)
    ensures Step(s, DispatcherDoes(d, Publish(true, true)), s', st)
    ensures s' == DispatcherAt(s, d, Marking(id)).(stream := Stored(s.stream, id))
  {
    s' := Do(s, DispatcherDoes(d, Publish(true, true)));
  }

  lemma MarkStep(s: State, d: Owner, id: Uuid, st: Confirmation) returns (s': State)
    requires d in s.dispatchers && s.dispatchers[d].pc == Marking(id) && OutboxOwnedBy(s.outbox, id, d)
    ensures Step(s, DispatcherDoes(d, Mark(true)), s', st)
    ensures s' == DispatcherAt(s, d, Seeking)
                  .(outbox := s.outbox[id := OutboxRow(Dispatched, None, None, Some(s.clock))])
  {
    s' := Do(s, DispatcherDoes(d, Mark(true)));
  }

  lemma DispatchSteps(s: State, d: Owner, id: Uuid, st: Confirmation) returns (s1: State, s2: State, s': State)
    requires d in s.dispatchers && s.dispatchers[d].pc.Seeking?
    requires id in s.outbox && Dispatchable(s.outbox[id], s.clock)
    ensures Step(s, DispatcherDoes(d, ClaimRow(id, true)), s1, st)
    ensures Step(s1, DispatcherDoes(d, Publish(true, true)), s2, st)
    ensures Step(s2, DispatcherDoes(d, Mark(true)), s', st)
    ensures s' == s.(outbox := s.outbox[id := OutboxRow(Dispatched, None, None, Some(s.clock))], stream := s'.stream)
  {
    s1 := ClaimRowStep(s, d, id, st);
    s2 := PublishStep(s1, d, id, st);
    s' := MarkStep(s2, d, id, st);
    assert s'.dispatchers == s.dispatchers;
    assert s'.outbox == s.outbox[id := OutboxRow(Dispatched, None, None, Some(s.clock))];
  }

  /** One row: claim it, publish it, mark it. */
  lemma DispatchRun(s: State, d: Owner, id: Uuid, st: Confirmation) returns (s': State)
    requires d in s.dispatchers && s.dispatchers[d].pc.Seeking?
    requires id in s.outbox && Dispatchable(s.outbox[id], s.clock)
    ensures Leads(s, s', st)
    ensures s' == s.(outbox := s.outbox[id := OutboxRow(Dispatched, None, None, Some(s.clock))], stream := s'.stream)
  {
    var s1, s2;
    s1, s2, s' := DispatchSteps(s, d, id, st);
    Three(s, DispatcherDoes(d, ClaimRow(id, true)), s1, DispatcherDoes(d, Publish(true, true)), s2,
          DispatcherDoes(d, Mark(true)), s', st);
  }

  lemma DispatchOne(s: State, d: Owner, w: Owner, id: Uuid, st: Confirmation) returns (s': State)
    requires Ready(s, d, w) && id in Undispatched(s)
    ensures Leads(s, s', st) && Ready(s', d, w)
    ensures Undispatched(s') == Undispatched(s) - {id}
  {
    Undelayed(s, id);
    s' := DispatchRun(s, d, id, st);
    LeadsKeepsInv(s, s', st);
    OneFewer(s, s', d, w, id);
  }

  lemma OneFewer(s: State, s': State, d: Owner, w: Owner, id: Uuid)
    requires Expirable(s) && Crew(s, d, w) && id in s.outbox
    requires s' == s.(outbox := s.outbox[id := OutboxRow(Dispatched, None, None, Some(s.clock))], stream := s'.stream)
    ensures Expirable(s') && Crew(s', d, w)
    ensures Undispatched(s') == Undispatched(s) - {id}
  {
  }

  lemma Undelayed(s: State, id: Uuid)
    requires TablesOk(s.payments, s.outbox) && Expirable(s) && id in Undispatched(s)
    ensures Dispatchable(s.outbox[id], s.clock)
  {
  }

  lemma {:induction false} DispatchAll(s: State, d: Owner, w: Owner, st: Confirmation) returns (s': State)
    requires Ready(s, d, w)
    ensures Leads(s, s', st) && Ready(s', d, w)
    ensures Undispatched(s') == {}
    decreases Undispatched(s)
  {
    if Undispatched(s) == {} {
      LeadsNowhere(s, st);
      s' := s;
    } else {
      var id :| id in Undispatched(s);
      var s1 := DispatchOne(s, d, w, id, st);
      s' := DispatchAll(s1, d, w, st);
      LeadsOn(s, s1, s', st);
    }
  }

  // ----- Processing -----

  /** The worker has taken a delivery as far as the moment before its acknowledgement. */
  ghost predicate AboutToAck(s: State, s': State, w: Owner, d: Delivery) {
    && w in s.workers && w in s'.workers && s'.workers[w] == s.workers[w].(pc := Acking(d))
    && s'.outbox == s.outbox && s'.stream == s.stream && s'.dispatchers == s.dispatchers
    && s'.replicas == s.replicas && s'.clock == s.clock
    && s'.payments.Keys == s.payments.Keys
    && (forall id | id in s.payments :: id == d.id || s'.payments[id] == s.payments[id])
    && IsCompleted(s', d.id)
  }

  lemma FetchStep(s: State, w: Owner, k: Seq, st: Confirmation) returns (s': State)
    requires w in s.workers && s.workers[w].pc.Idle? && k in s.stream.messages
    ensures Step(s, WorkerDoes(w, Fetch(k)), s', st)
    ensures s' == WorkerAt(s, w, Fetched(Delivery(k, s.stream.messages[k])))
  {
    s' := Do(s, WorkerDoes(w, Fetch(k)));
  }

  lemma SelectStep(s: State, w: Owner, st: Confirmation) returns (s': State, view: Cache)
    requires w in s.workers && s.workers[w].pc.Fetched? && LiveInstance(s, s.workers[w].instance)
    requires KnownAvailable(s.replicas.nodes[s.workers[w].instance].cache, Default)
    ensures Step(s, WorkerDoes(w, Select), s', st)
    ensures s' == WorkerAt(s, w, Selected(s.workers[w].pc.d, Some(Default), view))
  {
    view := s.replicas.nodes[s.workers[w].instance].cache;
    s' := Do(s, WorkerDoes(w, Select));
  }

  /** The claim is granted, or the payment turns out to be completed. */
  lemma ClaimStep(s: State, w: Owner, st: Confirmation) returns (s': State)
    requires w in s.workers && s.workers[w].pc.Selected? && s.workers[w].pc.selected == Some(Default)
    requires var id := s.workers[w].pc.d.id;
             id in s.payments && PaymentRowOk(s.payments[id])
             && (s.payments[id].state.Processing? ==> Expired(s.payments[id].claimExpiresAt, s.clock))
    ensures Step(s, WorkerDoes(w, ClaimIt(Replied)), s', st)
    ensures s' == WorkerAt(s, w, s'.workers[w].pc).(payments := s'.payments, routes := s'.routes)
    ensures var d := s.workers[w].pc.d;
            if s.payments[d.id].state.Completed? then
              s'.workers[w].pc == Acking(d) && s'.payments == s.payments
            else
              && s'.workers[w].pc.Claimed? && s'.workers[w].pc.d == d
              && s'.workers[w].pc.claim.payment.id == d.id
              && s'.workers[w].pc.claim.takenAt == s.clock
              && PaymentRowOk(s'.payments[d.id])
              && s'.workers[w].pc.claim.expiresAt == s.clock + s.cfg.claimExpiry
              && Completes(s'.payments, d.id, w, s'.workers[w].pc.claim.payment.assignment)
              && s'.payments == s.payments[d.id := s'.payments[d.id]]
  {
    var pc := s.workers[w].pc;
    ClaimAnswersExactly(s.payments, pc.d.id, s.clock, pc.selected);
    s' := Do(s, WorkerDoes(w, ClaimIt(Replied)));
    assert s' == ClaimDo(s, w, Replied);
  }

  lemma SubmitStep(s: State, w: Owner, st: Confirmation) returns (s': State)
    requires w in s.workers && s.workers[w].pc.Claimed? && s.clock <= s.workers[w].pc.claim.takenAt
    ensures Step(s, WorkerDoes(w, Submit), s', st)
    ensures var pc := s.workers[w].pc;
            && s' == WorkerAt(s, w, Submitting(pc.d, pc.claim, s.clock + s.cfg.processorTimeout)).(books := s'.books)
            && pc.claim.payment.id in s'.books.Of(pc.claim.payment.assignment).sent
  {
    s' := Do(s, WorkerDoes(w, Submit));
  }

  lemma RecordStep(s: State, p: Processor, id: Uuid, st: Confirmation) returns (s': State)
    requires id in s.books.Of(p).sent
    ensures Step(s, Record(p, id), s', st)
    ensures s' == s.(books := s'.books) && id in s'.books.Of(p).recorded
  {
    s' := Do(s, Record(p, id));
    assert s' == RecordDo(s, p, id);
  }

  lemma HearStep(s: State, w: Owner, st: Confirmation) returns (s': State)
    requires w in s.workers && s.workers[w].pc.Submitting?
    requires var p := s.workers[w].pc.claim.payment; p.id in s.books.Of(p.assignment).recorded
    ensures Step(s, WorkerDoes(w, Hear(Response(st))), s', st)
    ensures s' == WorkerAt(s, w, Confirmed(s.workers[w].pc.d, s.workers[w].pc.claim))
  {
    s' := Do(s, WorkerDoes(w, Hear(Response(st))));
  }

  lemma CompleteStep(s: State, w: Owner, st: Confirmation) returns (s': State)
    requires w in s.workers && s.workers[w].pc.Confirmed?
    requires var p := s.workers[w].pc.claim.payment;
             p.id == s.workers[w].pc.d.id && Completes(s.payments, p.id, w, p.assignment)
    ensures Step(s, WorkerDoes(w, Complete(Replied)), s', st)
    ensures var d := s.workers[w].pc.d;
            && s' == WorkerAt(s, w, Acking(d)).(payments := s'.payments, log := s'.log)
            && IsCompleted(s', d.id) && s'.payments == s.payments[d.id := s'.payments[d.id]]
  {
    s' := Do(s, WorkerDoes(w, Complete(Replied)));
    assert s' == CompleteDo(s, w, Replied);
  }

  lemma AckStep(s: State, w: Owner, st: Confirmation) returns (s': State)
    requires w in s.workers && s.workers[w].pc.Acking?
    ensures Step(s, WorkerDoes(w, Ack(true)), s', st)
    ensures s' == WorkerAt(s, w, Idle)
                  .(stream := s.stream.(messages := s.stream.messages - {s.workers[w].pc.d.sequence}))
  {
    s' := Do(s, WorkerDoes(w, Ack(true)));
  }

  /** From a granted claim: submit, be recorded, hear 200, complete. */
  lemma Finishing(s: State, w: Owner, st: Confirmation) returns (s': State)
    requires w in s.workers && s.workers[w].pc.Claimed? && s.clock <= s.workers[w].pc.claim.takenAt
    requires var p := s.workers[w].pc.claim.payment;
             p.id == s.workers[w].pc.d.id && Completes(s.payments, p.id, w, p.assignment)
    ensures Leads(s, s', st) && AboutToAck(s, s', w, s.workers[w].pc.d)
  {
    var p := s.workers[w].pc.claim.payment;
    var s1, s2, s3;
    s1, s2, s3, s' := FinishingSteps(s, w, st);
    Four(s, WorkerDoes(w, Submit), s1, Record(p.assignment, p.id), s2,
         WorkerDoes(w, Hear(Response(st))), s3, WorkerDoes(w, Complete(Replied)), s', st);
  }

  lemma FinishingSteps(s: State, w: Owner, st: Confirmation) returns (s1: State, s2: State, s3: State, s': State)
    requires w in s.workers && s.workers[w].pc.Claimed? && s.clock <= s.workers[w].pc.claim.takenAt
    requires var p := s.workers[w].pc.claim.payment;
             p.id == s.workers[w].pc.d.id && Completes(s.payments, p.id, w, p.assignment)
    ensures var p := s.workers[w].pc.claim.payment;
            && Step(s, WorkerDoes(w, Submit), s1, st)
            && Step(s1, Record(p.assignment, p.id), s2, st)
            && Step(s2, WorkerDoes(w, Hear(Response(st))), s3, st)
            && Step(s3, WorkerDoes(w, Complete(Replied)), s', st)
    ensures AboutToAck(s, s', w, s.workers[w].pc.d)
  {
    var p := s.workers[w].pc.claim.payment;
    s1 := SubmitStep(s, w, st);
    s2 := RecordStep(s1, p.assignment, p.id, st);
    s3 := HearStep(s2, w, st);
    s' := CompleteStep(s3, w, st);
  }

  lemma TakingSteps(s: State, w: Owner, k: Seq, st: Confirmation) returns (s1: State, s2: State)
    requires w in s.workers && s.workers[w].pc.Idle? && k in s.stream.messages
    requires LiveInstance(s, s.workers[w].instance)
    requires KnownAvailable(s.replicas.nodes[s.workers[w].instance].cache, Default)
    ensures Step(s, WorkerDoes(w, Fetch(k)), s1, st) && Step(s1, WorkerDoes(w, Select), s2, st)
    ensures s2 == s.(workers := s2.workers) && w in s2.workers && s2.workers[w].instance == s.workers[w].instance
    ensures s2.workers[w].pc.Selected? && s2.workers[w].pc.selected == Some(Default)
    ensures s2.workers[w].pc.d == Delivery(k, s.stream.messages[k])
  {
    s1 := FetchStep(s, w, k, st);
    var view;
    s2, view := SelectStep(s1, w, st);
  }

  /** From an idle worker and a message to the moment before its acknowledgement. */
  lemma Processing(s: State, w: Owner, k: Seq, st: Confirmation) returns (s': State)
    requires w in s.workers && s.workers[w].pc.Idle? && k in s.stream.messages
    requires LiveInstance(s, s.workers[w].instance)
    requires KnownAvailable(s.replicas.nodes[s.workers[w].instance].cache, Default)
    requires var id := s.stream.messages[k];
             id in s.payments && PaymentRowOk(s.payments[id])
             && (s.payments[id].state.Processing? ==> Expired(s.payments[id].claimExpiresAt, s.clock))
    ensures Leads(s, s', st) && AboutToAck(s, s', w, Delivery(k, s.stream.messages[k]))
  {
    var id := s.stream.messages[k];
    var s1, s2 := TakingSteps(s, w, k, st);
    var s3 := ClaimStep(s2, w, st);
    Three(s, WorkerDoes(w, Fetch(k)), s1, WorkerDoes(w, Select), s2, WorkerDoes(w, ClaimIt(Replied)), s3, st);
    if s.payments[id].state.Completed? {
      s' := s3;
    } else {
      s' := Finishing(s3, w, st);
      LeadsOn(s, s3, s', st);
    }
  }

  lemma ProcessOne(s: State, d: Owner, w: Owner, k: Seq, st: Confirmation) returns (s': State)
    requires Ready(s, d, w) && k in s.stream.messages
    ensures Leads(s, s', st) && Ready(s', d, w)
    ensures s'.stream.messages == s.stream.messages - {k}
    ensures s'.outbox == s.outbox
  {
    Obtainable(s, k);
    var s1 := Processing(s, w, k, st);
    s' := AckStep(s1, w, st);
    LeadsTo(s1, WorkerDoes(w, Ack(true)), st);
    LeadsOn(s, s1, s', st);
    LeadsKeepsInv(s, s', st);
    StillExpirable(s, s', s.stream.messages[k]);
  }

  lemma Obtainable(s: State, k: Seq)
    requires TablesOk(s.payments, s.outbox) && StreamOk(s) && Expirable(s) && k in s.stream.messages
    ensures var id := s.stream.messages[k];
            id in s.payments && PaymentRowOk(s.payments[id])
            && (s.payments[id].state.Processing? ==> Expired(s.payments[id].claimExpiresAt, s.clock))
  {
  }

  lemma StillExpirable(s: State, s': State, done: Uuid)
    requires Expirable(s) && TablesOk(s'.payments, s'.outbox) && IsCompleted(s', done)
    requires s'.clock == s.clock && s'.outbox == s.outbox && s'.payments.Keys == s.payments.Keys
    requires forall id | id in s.payments :: id == done || s'.payments[id] == s.payments[id]
    ensures Expirable(s')
  {
  }

  lemma FewerMessages(messages: map<Seq, Uuid>, k: Seq)
    requires k in messages
    ensures |messages - {k}| < |messages|
  {
  }

  lemma {:induction false} ProcessAll(s: State, d: Owner, w: Owner, st: Confirmation) returns (s': State)
    requires Ready(s, d, w)
    ensures Leads(s, s', st) && Inv(s')
    ensures s'.stream.messages == map[] && s'.outbox == s.outbox
    decreases |s.stream.messages|
  {
    if s.stream.messages == map[] {
      LeadsNowhere(s, st);
      s' := s;
    } else {
      var k :| k in s.stream.messages;
      var s1 := ProcessOne(s, d, w, k, st);
      FewerMessages(s.stream.messages, k);
      s' := ProcessAll(s1, d, w, st);
      LeadsOn(s, s1, s', st);
    }
  }

  // ----- Getting ready -----

  lemma {:induction false} Beyond(expiries: map<Uuid, Option<Time>>, from: Time) returns (t: Time)
    ensures t >= from
    ensures forall id | id in expiries && expiries[id].Some? :: expiries[id].value <= t
    decreases expiries.Keys
  {
    t := from;
    if expiries == map[] {
    } else {
      var id :| id in expiries;
      var rest := expiries - {id};
      assert rest.Keys == expiries.Keys - {id};
      t := Beyond(rest, from);
      if expiries[id].Some? && expiries[id].value > t {
        t := expiries[id].value;
      }
      assert forall x | x in expiries :: x == id || (x in rest && rest[x] == expiries[x]);
    }
  }

  lemma {:induction false} Unused(used: set<nat>) returns (n: nat)
    ensures forall x | x in used :: x < n
    decreases |used|
  {
    n := 0;
    if used == {} {
    } else {
      var x :| x in used;
      var m := Unused(used - {x});
      n := if m <= x then x + 1 else m;
      assert forall y | y in used :: y == x || y in used - {x};
    }
  }

  ghost predicate PollWouldCount(r: R.State, now: Time) {
    Default in r.rows && r.rows[Default].passiveFailureAt.Some? ==> r.rows[Default].passiveFailureAt.value < now
  }

  /** Wait until every lease has expired. */
  lemma Waiting(s: State, st: Confirmation) returns (s': State)
    ensures Leads(s, s', st) && s' == s.(clock := s'.clock) && Expirable(s')
    ensures PollWouldCount(s'.replicas, s'.clock)
  {
    var now := s.clock;
    if Default in s.replicas.rows && s.replicas.rows[Default].passiveFailureAt.Some?
       && s.replicas.rows[Default].passiveFailureAt.value >= now {
      now := s.replicas.rows[Default].passiveFailureAt.value + 1;
    }
    var leases := map id | id in s.payments :: s.payments[id].claimExpiresAt;
    var dispatches := map id | id in s.outbox :: s.outbox[id].claimExpiresAt;
    now := Beyond(leases, now);
    now := Beyond(dispatches, now);
    assert forall id | id in s.payments :: leases[id] == s.payments[id].claimExpiresAt;
    assert forall id | id in s.outbox :: dispatches[id] == s.outbox[id].claimExpiresAt;
    s' := Do(s, Tick(now));
    LeadsTo(s, Tick(now), st);
  }

  /** Extends a run by one step of the availability machine. */
  lemma AndThen(s: State, r: R.State, l: R.Label, st: Confirmation) returns (r': R.State)
    requires Leads(s, s.(replicas := r), st) && R.Enabled(r, l) && !l.Passive? && !l.Stop?
    ensures r' == R.Do(r, l, s.clock) && Leads(s, s.(replicas := r'), st)
  {
    var s1 := s.(replicas := r);
    r' := R.Do(r, l, s.clock);
    assert Do(s1, Replicate(l)) == s.(replicas := r');
    LeadsTo(s1, Replicate(l), st);
    LeadsOn(s, s1, s.(replicas := r'), st);
  }

  /** If a session leads, let it end. */
  lemma FreeingTheLock(s: State, r: R.State, st: Confirmation) returns (r': R.State)
    requires Leads(s, s.(replicas := r), st)
    requires r.holders <= r.live && forall a, b | a in r.holders && b in r.holders :: a == b
    ensures Leads(s, s.(replicas := r'), st) && r'.holders == {}
    ensures r' == r.(live := r'.live, holders := r'.holders)
  {
    if r.holders == {} {
      r' := r;
    } else {
      var session :| session in r.holders;
      r' := AndThen(s, r, R.EndSession(session), st);
    }
  }

  lemma {:induction false} HydratingAll(s: State, r: R.State, i: Instance, st: Confirmation) returns (r': R.State)
    requires Leads(s, s.(replicas := r), st) && i in r.nodes && r.nodes[i].phase.Hydrating?
    ensures Leads(s, s.(replicas := r'), st) && i in r'.nodes
    ensures r' == r.(nodes := r.nodes[i := r.nodes[i].(phase := R.Live, cache := r'.nodes[i].cache)])
    decreases |r.nodes[i].phase.remaining|
  {
    var r1 := AndThen(s, r, R.HydrateNext(i), st);
    if r.nodes[i].phase.remaining == [] {
      r' := r1;
    } else {
      r' := HydratingAll(s, r1, i, st);
    }
  }

  /** A new instance subscribes, hydrates and goes live. */
  lemma JoiningInstance(s: State, r: R.State, i: Instance, st: Confirmation) returns (r': R.State)
    requires Leads(s, s.(replicas := r), st) && i !in r.nodes
    ensures Leads(s, s.(replicas := r'), st) && i in r'.nodes
    ensures r' == r.(nodes := r.nodes[i := R.Node(R.Live, r'.nodes[i].cache, {}, R.Follower)])
  {
    var r1 := AndThen(s, r, R.Subscribe(i), st);
    var r2 := AndThen(s, r1, R.ReadRows(i, false), st);
    r' := HydratingAll(s, r2, i, st);
  }

  /** It takes the lock and asks Default how it is. */
  lemma PollingDefault(s: State, r: R.State, i: Instance, st: Confirmation) returns (r': R.State)
    requires Leads(s, s.(replicas := r), st) && i in r.nodes && r.holders == {}
    requires r.nodes[i].phase.Live? && r.nodes[i].poller.Follower?
    ensures Leads(s, s.(replicas := r'), st) && i in r'.nodes
    ensures r'.rows == r.rows && r'.history == r.history && r'.notices == r.notices
    ensures r'.nodes[i].phase.Live?
    ensures r'.nodes[i].poller.Observed? && r'.nodes[i].poller.service == Default
    ensures r'.nodes[i].poller.available && r'.nodes[i].poller.startedAt == s.clock
  {
    var session := Unused(r.used);
    var r1 := AndThen(s, r, R.TryLead(i, session, true), st);
    var r2 := AndThen(s, r1, R.CheckAlive(i), st);
    var r3 := AndThen(s, r2, R.StartPoll(i), st);
    r' := AndThen(s, r3, R.Answer(i, true), st);
  }

  /** It records the healthy answer and applies it to its own cache. */
  lemma RecordingHealth(s: State, r: R.State, i: Instance, st: Confirmation) returns (r': R.State)
    requires Leads(s, s.(replicas := r), st) && i in r.nodes && ReplicasOk(r) && PollWouldCount(r, s.clock)
    requires r.nodes[i].phase.Live? && r.nodes[i].poller.Observed? && r.nodes[i].poller.service == Default
    requires r.nodes[i].poller.available && r.nodes[i].poller.startedAt == s.clock
    ensures Leads(s, s.(replicas := r'), st) && i in r'.nodes
    ensures r'.nodes[i].phase.Live? && KnownAvailable(r'.nodes[i].cache, Default)
  {
    var row := PollRow(r.rows, Default, true, s.clock).value;
    NewestVersion(r, i, s.clock);
    var r1 := AndThen(s, r, R.Record(i, true), st);
    var n := R.Notice(i, row, false);
    assert n in r1.notices && r1.nodes[i].cache == r.nodes[i].cache;
    r' := AndThen(s, r1, R.ApplyLocally(n), st);
  }

  lemma NewestVersion(r: R.State, i: Instance, now: Time)
    requires R.HistoryOk(r) && R.CopiesOk(r) && i in r.nodes && PollWouldCount(r, now)
    ensures var row := PollRow(r.rows, Default, true, now);
            && row.Some? && row.value.service == Default && row.value.available && row.value.version > 0
            && (Default in r.nodes[i].cache ==> r.nodes[i].cache[Default].version < row.value.version)
  {
  }

  lemma Routable(s: State, st: Confirmation) returns (s': State, i: Instance)
    requires Inv(s) && PollWouldCount(s.replicas, s.clock)
    ensures Leads(s, s', st) && s' == s.(replicas := s'.replicas)
    ensures LiveInstance(s', i) && KnownAvailable(s'.replicas.nodes[i].cache, Default)
  {
    assert s.(replicas := s.replicas) == s;
    LeadsNowhere(s, st);
    i := Unused(s.replicas.nodes.Keys);
    var r1 := FreeingTheLock(s, s.replicas, st);
    var r2 := JoiningInstance(s, r1, i, st);
    var r3 := PollingDefault(s, r2, i, st);
    LeadsKeepsInv(s, s.(replicas := r3), st);
    var r4 := RecordingHealth(s, r3, i, st);
    s' := s.(replicas := r4);
  }

  lemma Hiring(s: State, i: Instance, st: Confirmation) returns (s': State, d: Owner, w: Owner)
    requires LiveInstance(s, i) && KnownAvailable(s.replicas.nodes[i].cache, Default)
    ensures Leads(s, s', st) && Crew(s', d, w)
    ensures s' == s.(dispatchers := s'.dispatchers, workers := s'.workers, names := s'.names)
  {
    d := Unused(s.names);
    w := d + 1;
    var s1 := Do(s, StartDispatcher(d, i));
    s' := Do(s1, StartWorker(w, i));
    Two(s, StartDispatcher(d, i), s1, StartWorker(w, i), s', st);
  }

  lemma GettingReady(s: State, st: Confirmation) returns (s': State, d: Owner, w: Owner)
    requires Inv(s)
    ensures Leads(s, s', st) && Ready(s', d, w)
    ensures s'.cfg == s.cfg && s'.payments == s.payments && s'.outbox == s.outbox && s'.stream == s.stream
  {
    var s1 := Waiting(s, st);
    LeadsKeepsInv(s, s1, st);
    var s2, i := Routable(s1, st);
    LeadsOn(s, s1, s2, st);
    s', d, w := Hiring(s2, i, st);
    LeadsOn(s, s2, s', st);
    LeadsKeepsInv(s, s', st);
  }

  /** With every row dispatched and the stream empty, every payment is completed. */
  lemma NothingLeft(s: State)
    requires TablesOk(s.payments, s.outbox) && StreamOk(s)
    requires Undispatched(s) == {} && s.stream.messages == map[]
    ensures Drained(s)
  {
    forall id | id in s.outbox
      ensures s.outbox[id].state.Dispatched?
    {
      assert id !in Undispatched(s);
    }
    forall id | id in s.payments
      ensures s.payments[id].state.Completed?
    {
      assert id in s.stream.stored && !HasMessage(s.stream, id);
    }
  }

  /** From every reachable state, after any crashes, expired leases, ambiguous
      failures and lost broadcasts, some finite continuation whose clock never goes
      back completes every accepted payment, empties the stream and dispatches every
      outbox row; whichever of the two confirming statuses is the only one ever heard. */
  lemma Drainable(cfg: Config, clock: Time, ls: seq<Label>)
    requires Legal(Init(cfg, clock), ls)
    ensures exists more :: Drains(Run(Init(cfg, clock), ls), more) && AllHear(more, 200)
    ensures exists more :: Drains(Run(Init(cfg, clock), ls), more) && AllHear(more, 422)
  {
    Reached(cfg, clock, ls);
    var s := Run(Init(cfg, clock), ls);
    var s', more := Draining(s, 200);
    assert Drains(s, more);
    var s'', more' := Draining(s, 422);
    assert Drains(s, more');
  }

  lemma RecordedIsAssigned(cfg: Config, clock: Time, ls: seq<Label>, p: Processor, id: Uuid)
    requires Legal(Init(cfg, clock), ls) && id in Run(Init(cfg, clock), ls).books.Of(p).recorded
    ensures var s := Run(Init(cfg, clock), ls);
            id in s.payments && s.payments[id].assignment == Some(p)
  {
    ChargedAtOneProcessor(cfg, clock, ls, id);
  }

  lemma CompletedByAssignment(cfg: Config, clock: Time, ls: seq<Label>, more: seq<Label>, id: Uuid)
    requires Legal(Init(cfg, clock), ls) && Legal(Run(Init(cfg, clock), ls), more)
    requires IsCompleted(Run(Run(Init(cfg, clock), ls), more), id)
    ensures var r := Run(Run(Init(cfg, clock), ls), more).payments[id]; r.processedBy == r.assignment
  {
    RunConcat(Init(cfg, clock), ls, more);
    RowsWellFormed(cfg, clock, ls + more);
  }

  /** A payment that its processor has recorded can be completed although that processor
      answers nothing but 422 from now on. */
  lemma RecordedCanBeCompleted(cfg: Config, clock: Time, ls: seq<Label>, p: Processor, id: Uuid)
    requires Legal(Init(cfg, clock), ls) && id in Run(Init(cfg, clock), ls).books.Of(p).recorded
    ensures exists more ::
              && Legal(Run(Init(cfg, clock), ls), more) && AllHear(more, 422)
              && id in Run(Run(Init(cfg, clock), ls), more).payments
              && Run(Run(Init(cfg, clock), ls), more).payments[id].state.Completed?
              && Run(Run(Init(cfg, clock), ls), more).payments[id].processedBy == Some(p)
  {
    Drainable(cfg, clock, ls);
    var s := Run(Init(cfg, clock), ls);
    var more :| Drains(s, more) && AllHear(more, 422);
    RecordedIsAssigned(cfg, clock, ls, p, id);
    PaymentFactsArePermanent(cfg, clock, ls, more, id);
    CompletedByAssignment(cfg, clock, ls, more, id);
  }

  lemma Draining(s: State, st: Confirmation) returns (s': State, more: seq<Label>)
    requires Inv(s)
    ensures Via(s, more, s', 0, st) && Drained(s')
  {
    var s1, d, w := GettingReady(s, st);
    var s2 := DispatchAll(s1, d, w, st);
    LeadsOn(s, s1, s2, st);
    s' := ProcessAll(s2, d, w, st);
    LeadsOn(s, s2, s', st);
    assert Undispatched(s') == Undispatched(s2);
    NothingLeft(s');
    more :| Via(s, more, s', 0, st);
  }
}

/** The whole system refines a small machine per payment:
    Absent, Accepted, Assigned to one processor, Completed there. */
module Refinement {
  import opened Domain
  import opened Tables
  import opened System
  import opened Invariants
  import opened Preservation
  import opened Safety

  datatype Spec =
    | Absent
    | Accepted(amount: int, requestedAt: Time)
    | Assigned(amount: int, requestedAt: Time, service: Processor)
    | Completed(amount: int, requestedAt: Time, service: Processor)

  function Abstract(s: State, id: Uuid): Spec {
    if id !in s.payments then Absent
    else
      var r := s.payments[id];
      if r.state.Completed? && r.processedBy.Some? then Spec.Completed(r.amount, r.requestedAt, r.processedBy.value)
      else if r.assignment.Some? then Assigned(r.amount, r.requestedAt, r.assignment.value)
      else Accepted(r.amount, r.requestedAt)
  }

  /** One step of the small machine. A payment is completed only when its processor
      holds it in its books, with the amount and time it was accepted with. */
  predicate SpecStep(a: Spec, a': Spec, books: Both<Book>, id: Uuid) {
    match a
    case Absent => a'.Accepted? && a'.amount > 0
    case Accepted(amount, at) => a'.Assigned? && a'.amount == amount && a'.requestedAt == at
    case Assigned(amount, at, p) =>
      && a' == Spec.Completed(amount, at, p)
      && id in books.Of(p).recorded && books.Of(p).recorded[id] == Entry(amount, at)
    case Completed(_, _, _) => false
  }

  /** The payment a step is about, if it is about one. */
  function Subject(s: State, l: Label): Option<Uuid>
    requires Enabled(s, l)
  {
    match l
    case Accept(id, _) => Some(id)
    case WorkerDoes(w, step) =>
      if step.ClaimIt? then Some(s.workers[w].pc.d.id)
      else if step.Release? then Some(s.workers[w].pc.d.id)
      else if step.Complete? then Some(s.workers[w].pc.d.id)
      else None
    case _ => None
  }

  lemma OtherPaymentsUntouched(s: State, l: Label, id: Uuid)
    requires Enabled(s, l) && Subject(s, l) != Some(id)
    requires l.WorkerDoes? ==> WorkerOk(s, s.workers[l.w].pc)
    ensures Abstract(Do(s, l), id) == Abstract(s, id)
  {
    if !TouchesPayments(l) {
      Untouched(s, l);
    }
  }

  lemma AcceptRefines(s: State, id: Uuid, amount: int)
    ensures var s' := Do(s, Accept(id, amount));
            Abstract(s', id) == Abstract(s, id) || SpecStep(Abstract(s, id), Abstract(s', id), s'.books, id)
  {
  }

  lemma ClaimRefines(s: State, w: Owner, outcome: CallOutcome, id: Uuid)
    requires Enabled(s, WorkerDoes(w, ClaimIt(outcome))) && id == s.workers[w].pc.d.id && TablesOk(s.payments, s.outbox)
    ensures var s' := ClaimDo(s, w, outcome);
            Abstract(s', id) == Abstract(s, id) || SpecStep(Abstract(s, id), Abstract(s', id), s'.books, id)
  {
    ClaimAnswersExactly(s.payments, id, s.clock, s.workers[w].pc.selected);
  }

  lemma CompleteRefines(s: State, w: Owner, outcome: CallOutcome, id: Uuid)
    requires Enabled(s, WorkerDoes(w, Complete(outcome))) && id == s.workers[w].pc.d.id
    requires TablesOk(s.payments, s.outbox)
    requires WorkerOk(s, s.workers[w].pc) && BookOk(s, s.workers[w].pc.claim.payment.assignment)
    ensures var s' := CompleteDo(s, w, outcome);
            Abstract(s', id) == Abstract(s, id) || SpecStep(Abstract(s, id), Abstract(s', id), s'.books, id)
  {
    var p := s.workers[w].pc.claim.payment.assignment;
    assert s.books.Of(p).recorded[id] == s.books.Of(p).sent[id];
  }

  lemma ReleaseRefines(s: State, w: Owner, applied: bool, id: Uuid)
    requires Enabled(s, WorkerDoes(w, Release(applied))) && TablesOk(s.payments, s.outbox)
    ensures Abstract(WorkerDo(s, w, Release(applied)), id) == Abstract(s, id)
  {
  }

  /** Every step of the system is one step of the small machine for at most one
      payment, and nothing for all others. */
  lemma StepRefines(s: State, l: Label, id: Uuid)
    requires Enabled(s, l) && TablesOk(s.payments, s.outbox)
    requires l.WorkerDoes? ==>
               && WorkerOk(s, s.workers[l.w].pc)
               && (l.wstep.Complete? ==> BookOk(s, s.workers[l.w].pc.claim.payment.assignment))
    ensures var s' := Do(s, l);
            || Abstract(s', id) == Abstract(s, id)
            || (Subject(s, l) == Some(id) && SpecStep(Abstract(s, id), Abstract(s', id), s'.books, id))
  {
    if Subject(s, l) != Some(id) {
      OtherPaymentsUntouched(s, l, id);
    } else if l.Accept? {
      AcceptRefines(s, l.id, l.amount);
    } else if l.wstep.ClaimIt? {
      ClaimRefines(s, l.w, l.wstep.outcome, id);
    } else if l.wstep.Complete? {
      CompleteRefines(s, l.w, l.wstep.outcome, id);
    } else {
      ReleaseRefines(s, l.w, l.wstep.applied, id);
    }
  }

  /** The visible history of one payment along a run: its abstract values, with
      stutters removed. */
  function Trace(s: State, ls: seq<Label>, id: Uuid): (trace: seq<Spec>)
    requires Legal(s, ls)
    ensures trace != [] && trace[0] == Abstract(s, id)
    decreases ls
  {
    if ls == [] then [Abstract(s, id)]
    else
      var rest := Trace(Do(s, ls[0]), ls[1..], id);
      if rest[0] == Abstract(s, id) then rest else [Abstract(s, id)] + rest
  }

  predicate SpecRun(trace: seq<Spec>, books: Both<Book>, id: Uuid) {
    forall k | 0 < k < |trace| :: SpecStep(trace[k - 1], trace[k], books, id)
  }

  lemma SpecStepStable(a: Spec, a': Spec, books: Both<Book>, books': Both<Book>, id: Uuid)
    requires SpecStep(a, a', books, id)
    requires BookExtends(books.default, books'.default) && BookExtends(books.fallback, books'.fallback)
    ensures SpecStep(a, a', books', id)
  {
  }

  lemma Prepend(a: Spec, trace: seq<Spec>, books: Both<Book>, id: Uuid)
    requires trace != [] && SpecStep(a, trace[0], books, id) && SpecRun(trace, books, id)
    ensures SpecRun([a] + trace, books, id)
  {
  }

  lemma SoundStepRefines(s: State, l: Label, id: Uuid)
    requires Enabled(s, l) && Inv(s)
    ensures Inv(Do(s, l))
    ensures var s' := Do(s, l);
            Abstract(s', id) == Abstract(s, id) || SpecStep(Abstract(s, id), Abstract(s', id), s'.books, id)
  {
    InvHolds(s, l);
    if l.WorkerDoes? && l.wstep.Complete? {
      EitherBook(s, s.workers[l.w].pc.claim.payment.assignment);
    }
    StepRefines(s, l, id);
  }

  lemma EitherBook(s: State, p: Processor)
    requires BookOk(s, Default) && BookOk(s, Fallback)
    ensures BookOk(s, p)
  {
  }

  lemma {:induction false} RunRefines(s: State, ls: seq<Label>, id: Uuid)
    requires Legal(s, ls) && Inv(s)
    ensures var trace := Trace(s, ls, id);
            && trace[|trace| - 1] == Abstract(Run(s, ls), id)
            && SpecRun(trace, Run(s, ls).books, id)
    decreases ls
  {
    if ls != [] {
      var s1 := Do(s, ls[0]);
      var end := Run(s1, ls[1..]);
      SoundStepRefines(s, ls[0], id);
      RunKeepsBooks(s1, ls[1..]);
      RunRefines(s1, ls[1..], id);
      if Abstract(s1, id) != Abstract(s, id) {
        SpecStepStable(Abstract(s, id), Abstract(s1, id), s1.books, end.books, id);
        Prepend(Abstract(s, id), Trace(s1, ls[1..], id), end.books, id);
      }
    }
  }

  lemma RunKeepsBooks(s: State, ls: seq<Label>)
    requires Legal(s, ls) && Inv(s)
    ensures BookExtends(s.books.default, Run(s, ls).books.default)
    ensures BookExtends(s.books.fallback, Run(s, ls).books.fallback)
  {
    RunKeepsInv(s, ls);
  }

  /** Along every run of the whole system, each payment is accepted, assigned and
      completed in that order, each at most once, to one processor, with its amount
      and acceptance time unchanged; and it ends where the small machine ends. */
  lemma SystemRefinesPaymentMachine(cfg: Config, clock: Time, ls: seq<Label>, id: Uuid)
    requires Legal(Init(cfg, clock), ls)
    ensures var s := Run(Init(cfg, clock), ls);
            var trace := Trace(Init(cfg, clock), ls, id);
            && 1 <= |trace| <= 4
            && trace[0] == Absent
            && trace[|trace| - 1] == Abstract(s, id)
            && SpecRun(trace, s.books, id)
  {
    InitInv(cfg, clock);
    RunRefines(Init(cfg, clock), ls, id);
    var trace := Trace(Init(cfg, clock), ls, id);
    RankGrows(trace, Run(Init(cfg, clock), ls).books, id, |trace| - 1);
  }

  function Rank(a: Spec): nat {
    match a
    case Absent => 0
    case Accepted(_, _) => 1
    case Assigned(_, _, _) => 2
    case Completed(_, _, _) => 3
  }

  lemma {:induction false} RankGrows(trace: seq<Spec>, books: Both<Book>, id: Uuid, k: nat)
    requires SpecRun(trace, books, id) && k < |trace|
    ensures Rank(trace[k]) >= k
  {
    if k == 0 {
    } else {
      RankGrows(trace, books, id, k - 1);
      assert SpecStep(trace[k - 1], trace[k], books, id);
    }
  }
}

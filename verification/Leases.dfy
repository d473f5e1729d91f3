/** Leases on payments. With a clock that never goes back, two workers never both
    hold an unexpired claim; a superseded worker's later statements touch nothing;
    and if submissions start soon enough after the claim, two client-side
    submissions of one payment are never open together. */
module Leases {
  import opened Domain
  import opened Tables
  import opened System
  import opened Invariants
  import opened Preservation
  import opened Safety

  predicate HoldsClaim(pc: WorkerPc) {
    pc.Claimed? || pc.Submitting? || pc.Failing? || pc.Releasing? || pc.Confirmed?
  }

  /** Worker `w` is between a granted claim and its release or completion, and the
      lease it was given has not expired. */
  predicate HoldsLease(s: State, w: Owner, id: Uuid) {
    && w in s.workers
    && HoldsClaim(s.workers[w].pc)
    && s.workers[w].pc.d.id == id
    && s.clock < s.workers[w].pc.claim.expiresAt
  }

  ghost predicate LeaseRecorded(s: State, w: Owner) {
    w in s.workers && HoldsClaim(s.workers[w].pc) && s.clock < s.workers[w].pc.claim.expiresAt ==>
      var id := s.workers[w].pc.d.id;
      && OwnedBy(s.payments, id, w)
      && s.payments[id].claimExpiresAt == Some(s.workers[w].pc.claim.expiresAt)
  }

  ghost predicate LeasesOk(s: State) {
    forall w | w in s.workers :: LeaseRecorded(s, w)
  }

  /** Nobody but the owner ends or replaces a lease that has not expired. */
  lemma OwnedRowKept(s: State, l: Label, w: Owner, id: Uuid)
    requires Enabled(s, l) && !(l.WorkerDoes? && l.w == w)
    requires OwnedBy(s.payments, id, w)
    requires s.payments[id].claimExpiresAt.Some? && s.clock < s.payments[id].claimExpiresAt.value
    ensures id in Do(s, l).payments && Do(s, l).payments[id] == s.payments[id]
  {
    if !TouchesPayments(l) {
      Untouched(s, l);
    }
  }

  lemma OwnStepKeepsLease(s: State, w: Owner, step: WorkerStep)
    requires Enabled(s, WorkerDoes(w, step)) && LeaseRecorded(s, w) && WorkerOk(s, s.workers[w].pc)
    ensures LeaseRecorded(WorkerDo(s, w, step), w)
  {
    if !TouchesPayments(WorkerDoes(w, step)) {
      UntouchedByWorker(s, w, step);
    }
  }

  lemma LeasesKept(s: State, l: Label)
    requires Enabled(s, l) && Inv(s) && LeasesOk(s) && ClockForward(s, l)
    ensures LeasesOk(Do(s, l))
  {
    var s' := Do(s, l);
    ClockMoves(s, l);
    forall w | w in s'.workers
      ensures LeaseRecorded(s', w)
    {
      if l.WorkerDoes? && l.w == w {
        OwnStepKeepsLease(s, w, l.wstep);
      } else {
        OtherStepKeepsLease(s, l, w);
      }
    }
  }

  lemma OtherStepKeepsLease(s: State, l: Label, w: Owner)
    requires Enabled(s, l) && AgentsOk(s) && ClockForward(s, l)
    requires w in s.workers ==> LeaseRecorded(s, w)
    requires w in Do(s, l).workers && !(l.WorkerDoes? && l.w == w)
    ensures LeaseRecorded(Do(s, l), w)
  {
    ClockMoves(s, l);
    OtherWorkerUnmoved(s, l, w);
    if w in s.workers && HoldsClaim(s.workers[w].pc) && s.clock < s.workers[w].pc.claim.expiresAt {
      OwnedRowKept(s, l, w, s.workers[w].pc.d.id);
    }
  }

  lemma {:induction false} RunKeepsLeases(s: State, ls: seq<Label>)
    requires Legal(s, ls) && Monotone(s, ls) && Inv(s) && LeasesOk(s)
    ensures LeasesOk(Run(s, ls))
    decreases ls
  {
    if ls == [] {
    } else {
      InvHolds(s, ls[0]);
      LeasesKept(s, ls[0]);
      RunKeepsLeases(Do(s, ls[0]), ls[1..]);
    }
  }

  /** At most one worker holds an unexpired, unreleased lease on a payment, and the
      row names it. */
  lemma LeaseExclusion(cfg: Config, clock: Time, ls: seq<Label>, v: Owner, w: Owner, id: Uuid)
    requires Legal(Init(cfg, clock), ls) && Monotone(Init(cfg, clock), ls)
    ensures var s := Run(Init(cfg, clock), ls);
            && (HoldsLease(s, v, id) && HoldsLease(s, w, id) ==> v == w)
            && (HoldsLease(s, w, id) ==> OwnedBy(s.payments, id, w))
  {
    InitInv(cfg, clock);
    RunKeepsLeases(Init(cfg, clock), ls);
    var s := Run(Init(cfg, clock), ls);
    assert v in s.workers ==> LeaseRecorded(s, v);
    assert w in s.workers ==> LeaseRecorded(s, w);
  }

  // ----- Fencing, with no clock assumption -----

  predicate NotOwner(s: State, w: Owner, id: Uuid) {
    id in s.payments && s.payments[id].claimedBy != Some(w)
  }

  /** `w` claims this very payment again; its claims on other payments do not matter. */
  predicate ClaimsAgain(s: State, l: Label, w: Owner, id: Uuid)
    requires Enabled(s, l)
  {
    l.WorkerDoes? && l.w == w && l.wstep.ClaimIt? && s.workers[w].pc.d.id == id
  }

  predicate NeverClaimsAgain(s: State, ls: seq<Label>, w: Owner, id: Uuid)
    requires Legal(s, ls)
    decreases ls
  {
    ls == [] || (!ClaimsAgain(s, ls[0], w, id) && NeverClaimsAgain(Do(s, ls[0]), ls[1..], w, id))
  }

  /** Every step that `w` takes in the run leaves the row of `id` as it found it. */
  predicate NeverTouches(s: State, ls: seq<Label>, w: Owner, id: Uuid)
    requires Legal(s, ls)
    decreases ls
  {
    ls == [] ||
    (&& (ls[0].WorkerDoes? && ls[0].w == w ==>
           && id in s.payments && id in Do(s, ls[0]).payments
           && Do(s, ls[0]).payments[id] == s.payments[id])
     && NeverTouches(Do(s, ls[0]), ls[1..], w, id))
  }

  lemma FenceHolds(s: State, l: Label, w: Owner, id: Uuid)
    requires Enabled(s, l) && NotOwner(s, w, id) && !ClaimsAgain(s, l, w, id)
    ensures NotOwner(Do(s, l), w, id)
    ensures l.WorkerDoes? && l.w == w ==> Do(s, l).payments[id] == s.payments[id]
  {
    if !TouchesPayments(l) {
      Untouched(s, l);
    }
  }

  lemma {:induction false} FenceHoldsForGood(s: State, ls: seq<Label>, w: Owner, id: Uuid)
    requires Legal(s, ls) && NotOwner(s, w, id) && NeverClaimsAgain(s, ls, w, id)
    ensures NeverTouches(s, ls, w, id) && NotOwner(Run(s, ls), w, id)
    decreases ls
  {
    if ls == [] {
    } else {
      FenceHolds(s, ls[0], w, id);
      FenceHoldsForGood(Do(s, ls[0]), ls[1..], w, id);
    }
  }

  /** Once another worker's claim on a payment has been granted, whatever a superseded
      worker still does for its own earlier claim, releases and completions included,
      changes nothing in that payment's row, however long it goes on and whatever other
      payments it claims meanwhile, until it claims this payment again. */
  lemma SupersededWorkerIsFenced(s: State, v: Owner, outcome: CallOutcome, more: seq<Label>, w: Owner)
    requires Enabled(s, WorkerDoes(v, ClaimIt(outcome))) && !outcome.LostUnapplied? && w != v
    requires ClaimReply(s.payments, s.workers[v].pc.d.id, s.clock, s.workers[v].pc.selected).PaymentClaimed?
    requires Legal(Do(s, WorkerDoes(v, ClaimIt(outcome))), more)
    requires NeverClaimsAgain(Do(s, WorkerDoes(v, ClaimIt(outcome))), more, w, s.workers[v].pc.d.id)
    ensures NeverTouches(Do(s, WorkerDoes(v, ClaimIt(outcome))), more, w, s.workers[v].pc.d.id)
  {
    var s1 := Do(s, WorkerDoes(v, ClaimIt(outcome)));
    assert s1 == ClaimDo(s, v, outcome);
    FenceHoldsForGood(s1, more, w, s.workers[v].pc.d.id);
  }

  /** A release that the database applies only after its caller was told that it failed
      is not a step of the system. It keeps the leases on record if and only if its
      worker does not hold an unexpired lease on that payment by then. */
  lemma LateReleaseIsSafeExactly(s: State, w: Owner, id: Uuid)
    requires AgentsOk(s) && LeasesOk(s)
    ensures LeasesOk(s.(payments := ReleasedPayments(s.payments, id, w))) <==> !HoldsLease(s, w, id)
  {
    var s' := s.(payments := ReleasedPayments(s.payments, id, w));
    if HoldsLease(s, w, id) {
      assert LeaseRecorded(s, w) && !LeaseRecorded(s', w);
    } else {
      forall v | v in s'.workers
        ensures LeaseRecorded(s', v)
      {
        assert LeaseRecorded(s, v);
      }
    }
  }

  /** A release by the current owner frees the payment at once: whoever claims it next,
      at whatever time and with whatever selection, is granted it with its assignment,
      amount and time. A release by anyone else leaves the table as it was. */
  lemma ReleaseFreesAtOnce(s: State, w: Owner, now: Time, selected: Option<Processor>, v: Owner)
    requires Reachable(s) && Enabled(s, WorkerDoes(w, Release(true)))
    ensures var s' := Do(s, WorkerDoes(w, Release(true)));
            var id := s.workers[w].pc.d.id;
            && id in s.payments
            && var r := s.payments[id];
               if r.state.Processing? && r.claimedBy == Some(w) then
                 && r.assignment.Some?
                 && ClaimReply(s'.payments, id, now, selected) ==
                    PaymentClaimed(Payment(id, r.amount, r.requestedAt, r.assignment.value))
                 && (HasSelected(s', v) && s'.workers[v].pc.d.id == id ==>
                       Do(s', WorkerDoes(v, ClaimIt(Replied))).workers[v].pc.Claimed?)
               else
                 s'.payments == s.payments
  {
    ReachableMeansInv(s);
    assert WorkerOk(s, s.workers[w].pc);
    ReleaseFreesRow(s, w, now, selected);
    var s' := Do(s, WorkerDoes(w, Release(true)));
    var id := s.workers[w].pc.d.id;
    if OwnedBy(s.payments, id, w) && HasSelected(s', v) && s'.workers[v].pc.d.id == id {
      ReleaseFreesRow(s, w, s'.clock, s'.workers[v].pc.selected);
      GrantedClaim(s', v);
    }
  }

  lemma GrantedClaim(s: State, v: Owner)
    requires HasSelected(s, v)
    requires ClaimReply(s.payments, s.workers[v].pc.d.id, s.clock, s.workers[v].pc.selected).PaymentClaimed?
    ensures Do(s, WorkerDoes(v, ClaimIt(Replied))).workers[v].pc.Claimed?
  {
    assert Do(s, WorkerDoes(v, ClaimIt(Replied))) == ClaimDo(s, v, Replied);
  }

  lemma ReleaseFreesRow(s: State, w: Owner, now: Time, selected: Option<Processor>)
    requires Enabled(s, WorkerDoes(w, Release(true))) && TablesOk(s.payments, s.outbox)
    requires s.workers[w].pc.d.id in s.payments
    ensures var s' := WorkerDo(s, w, Release(true));
            var id := s.workers[w].pc.d.id;
            var r := s.payments[id];
            if r.state.Processing? && r.claimedBy == Some(w) then
              && r.assignment.Some?
              && ClaimReply(s'.payments, id, now, selected) ==
                 PaymentClaimed(Payment(id, r.amount, r.requestedAt, r.assignment.value))
            else
              s'.payments == s.payments
  {
    assert PaymentRowOk(s.payments[s.workers[w].pc.d.id]);
  }

  /** In any run the database applies a completion of a payment at most once, so at
      most one call is ever told that it completed it. */
  lemma CompletedAtMostOnce(cfg: Config, clock: Time, ls: seq<Label>, j: nat, k: nat)
    requires Legal(Init(cfg, clock), ls)
    ensures var log := Run(Init(cfg, clock), ls).log;
            j < k < |log| ==> log[j].id != log[k].id
  {
    Reached(cfg, clock, ls);
  }

  // ----- Open submissions -----

  /** The client's deadline closes the submission. */
  predicate OpenSubmission(s: State, w: Owner, id: Uuid) {
    && w in s.workers
    && s.workers[w].pc.Submitting?
    && s.workers[w].pc.d.id == id
    && s.clock < s.workers[w].pc.deadline
  }

  /** A submission starts within `delay` of its claim. */
  predicate PromptStep(s: State, l: Label, delay: int)
    requires Enabled(s, l)
  {
    l.WorkerDoes? && l.wstep.Submit? ==> s.clock <= s.workers[l.w].pc.claim.takenAt + delay
  }

  predicate Prompt(s: State, ls: seq<Label>, delay: int)
    requires Legal(s, ls)
    decreases ls
  {
    ls == [] || (PromptStep(s, ls[0], delay) && Prompt(Do(s, ls[0]), ls[1..], delay))
  }

  lemma {:induction false} PromptConcat(s: State, first: seq<Label>, second: seq<Label>, delay: int)
    requires Legal(s, first) && Legal(Run(s, first), second)
    requires Prompt(s, first, delay) && Prompt(Run(s, first), second, delay)
    ensures Legal(s, first + second) && Prompt(s, first + second, delay)
    decreases first
  {
    RunConcat(s, first, second);
    if first == [] {
      assert first + second == second;
    } else {
      assert (first + second)[1..] == first[1..] + second;
      PromptConcat(Do(s, first[0]), first[1..], second, delay);
    }
  }

  lemma {:induction false} PromptWeakens(s: State, ls: seq<Label>, delay: int, delay': int)
    requires Legal(s, ls) && Prompt(s, ls, delay) && delay <= delay'
    ensures Prompt(s, ls, delay')
    decreases ls
  {
    if ls == [] {
    } else {
      PromptWeakens(Do(s, ls[0]), ls[1..], delay, delay');
    }
  }

  ghost predicate DeadlinesOk(s: State) {
    forall w | w in s.workers && s.workers[w].pc.Submitting? ::
      s.workers[w].pc.deadline <= s.workers[w].pc.claim.expiresAt
  }

  lemma OwnDeadlineKept(s: State, w: Owner, step: WorkerStep, delay: int)
    requires Enabled(s, WorkerDoes(w, step)) && WorkerOk(s, s.workers[w].pc)
    requires delay + s.cfg.processorTimeout <= s.cfg.claimExpiry
    requires step.Submit? ==> s.clock <= s.workers[w].pc.claim.takenAt + delay
    ensures var pc' := WorkerDo(s, w, step).workers[w].pc;
            pc'.Submitting? ==> pc'.deadline <= pc'.claim.expiresAt
  {
  }

  lemma DeadlinesKept(s: State, l: Label, delay: int)
    requires Enabled(s, l) && AgentsOk(s) && DeadlinesOk(s)
    requires delay + s.cfg.processorTimeout <= s.cfg.claimExpiry
    requires PromptStep(s, l, delay)
    ensures DeadlinesOk(Do(s, l))
  {
    var s' := Do(s, l);
    forall w | w in s'.workers && s'.workers[w].pc.Submitting?
      ensures s'.workers[w].pc.deadline <= s'.workers[w].pc.claim.expiresAt
    {
      if l.WorkerDoes? && l.w == w {
        OwnDeadlineKept(s, w, l.wstep, delay);
      } else {
        OtherWorkerUnmoved(s, l, w);
      }
    }
  }

  lemma {:induction false} RunKeepsDeadlines(s: State, ls: seq<Label>, delay: int)
    requires Legal(s, ls) && Prompt(s, ls, delay) && Inv(s) && DeadlinesOk(s)
    requires delay + s.cfg.processorTimeout <= s.cfg.claimExpiry
    ensures DeadlinesOk(Run(s, ls))
    decreases ls
  {
    if ls == [] {
    } else {
      InvHolds(s, ls[0]);
      DeadlinesKept(s, ls[0], delay);
      RunKeepsDeadlines(Do(s, ls[0]), ls[1..], delay);
    }
  }

  /** If the delay from claim to submission plus the processor timeout fits in the
      claim expiry, no two workers ever have submissions of one payment open at once. */
  lemma SubmissionExclusion(cfg: Config, clock: Time, ls: seq<Label>, delay: int, v: Owner, w: Owner, id: Uuid)
    requires Legal(Init(cfg, clock), ls) && Monotone(Init(cfg, clock), ls)
    requires Prompt(Init(cfg, clock), ls, delay) && delay + cfg.processorTimeout <= cfg.claimExpiry
    ensures var s := Run(Init(cfg, clock), ls);
            OpenSubmission(s, v, id) && OpenSubmission(s, w, id) ==> v == w
  {
    InitInv(cfg, clock);
    RunKeepsDeadlines(Init(cfg, clock), ls, delay);
    LeaseExclusion(cfg, clock, ls, v, w, id);
  }
}

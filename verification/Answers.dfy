/** What a processor's answer means, over whole runs: which answers let a payment be
    completed, which take the processor out of routing, and which merely retry. */
module Answers {
  import opened Domain
  import opened Tables
  import opened System
  import opened Invariants
  import opened Preservation
  import opened Safety
  import Faults

  /** At step `k` worker `w` hears this answer about the payment. */
  predicate HeardAt(s: State, ls: seq<Label>, k: nat, w: Owner, answer: HttpOutcome, id: Uuid)
    requires Legal(s, ls)
  {
    && k < |ls| && ls[k] == WorkerDoes(w, Hear(answer))
    && w in StateAt(s, ls, k).workers && StateAt(s, ls, k).workers[w].pc.Submitting?
    && StateAt(s, ls, k).workers[w].pc.d.id == id
  }

  // ----- The next step after an answer -----

  lemma {:induction false} StaysPut(cfg: Config, clock: Time, ls: seq<Label>, j: nat, k: nat, w: Owner)
    requires Legal(Init(cfg, clock), ls) && j <= k <= |ls|
    requires forall m | j <= m < k :: !StepOf(ls[m], w)
    requires w in StateAt(Init(cfg, clock), ls, k).workers && w in StateAt(Init(cfg, clock), ls, j).names
    ensures var s := Init(cfg, clock);
            w in StateAt(s, ls, j).workers && StateAt(s, ls, j).workers[w] == StateAt(s, ls, k).workers[w]
    decreases k
  {
    var s := Init(cfg, clock);
    if j == k {
    } else {
      Faults.NamesLast(cfg, clock, ls, j, k - 1, w);
      StayedPut(cfg, clock, ls, k - 1, w);
      StaysPut(cfg, clock, ls, j, k - 1, w);
    }
  }

  lemma StayedPut(cfg: Config, clock: Time, ls: seq<Label>, k: nat, w: Owner)
    requires Legal(Init(cfg, clock), ls) && k < |ls| && !StepOf(ls[k], w)
    requires w in StateAt(Init(cfg, clock), ls, k + 1).workers && w in StateAt(Init(cfg, clock), ls, k).names
    ensures var s := Init(cfg, clock);
            w in StateAt(s, ls, k).workers && StateAt(s, ls, k).workers[w] == StateAt(s, ls, k + 1).workers[w]
  {
    StepAt(Init(cfg, clock), ls, k);
    Faults.Resident(StateAt(Init(cfg, clock), ls, k), ls[k], w);
    OtherWorkerUnmoved(StateAt(Init(cfg, clock), ls, k), ls[k], w);
  }

  /** Where an answer leaves a worker. */
  predicate Answered(pc: WorkerPc, answer: HttpOutcome) {
    && (pc.Confirmed? <==> answer == Response(200) || answer == Response(422))
    && (pc.Failing? <==> answer.TimedOut? || (answer.Response? && 500 <= answer.status <= 599))
    && (pc.Confirmed? || pc.Failing? || pc.Releasing?)
  }

  lemma HearingDecides(s: State, w: Owner, answer: HttpOutcome)
    requires Enabled(s, WorkerDoes(w, Hear(answer)))
    ensures Answered(WorkerDo(s, w, Hear(answer)).workers[w].pc, answer)
  {
  }

  /** In every run, a worker's next step after an answer is the completion exactly for
      200 and 422, the failure report exactly for an expired deadline and 500 to 599, and
      otherwise the release. */
  lemma AnswerDecides(cfg: Config, clock: Time, ls: seq<Label>, k: nat, m: nat, w: Owner, answer: HttpOutcome)
    requires Legal(Init(cfg, clock), ls) && k < m < |ls|
    requires ls[k] == WorkerDoes(w, Hear(answer)) && StepOf(ls[m], w)
    requires forall n | k < n < m :: !StepOf(ls[n], w)
    ensures ls[m].wstep.Complete? <==> answer == Response(200) || answer == Response(422)
    ensures ls[m].wstep.ReportFailure? <==>
            answer.TimedOut? || (answer.Response? && 500 <= answer.status <= 599)
    ensures ls[m].wstep.Complete? || ls[m].wstep.ReportFailure? || ls[m].wstep.Release?
  {
    AfterHearing(cfg, clock, ls, k, w, answer);
    StepOfResident(cfg, clock, ls, m, w);
    StaysPut(cfg, clock, ls, k + 1, m, w);
    PlaceDecides(StateAt(Init(cfg, clock), ls, m), w, ls[m].wstep);
  }

  lemma AfterHearing(cfg: Config, clock: Time, ls: seq<Label>, k: nat, w: Owner, answer: HttpOutcome)
    requires Legal(Init(cfg, clock), ls) && k < |ls| && ls[k] == WorkerDoes(w, Hear(answer))
    ensures var s := StateAt(Init(cfg, clock), ls, k + 1);
            w in s.workers && w in s.names && Answered(s.workers[w].pc, answer)
  {
    StepAt(Init(cfg, clock), ls, k);
    HearingDecides(StateAt(Init(cfg, clock), ls, k), w, answer);
    ReachedAt(cfg, clock, ls, k + 1);
  }

  lemma StepOfResident(cfg: Config, clock: Time, ls: seq<Label>, m: nat, w: Owner)
    requires Legal(Init(cfg, clock), ls) && m < |ls| && StepOf(ls[m], w)
    ensures var s := StateAt(Init(cfg, clock), ls, m); Enabled(s, ls[m]) && w in s.workers
  {
    StepAt(Init(cfg, clock), ls, m);
  }

  lemma PlaceDecides(s: State, w: Owner, step: WorkerStep)
    requires Enabled(s, WorkerDoes(w, step))
    ensures s.workers[w].pc.Confirmed? ==> step.Complete?
    ensures s.workers[w].pc.Failing? ==> step.ReportFailure?
    ensures s.workers[w].pc.Releasing? ==> step.Release?
  {
  }

  // ----- Every completion was confirmed -----

  /** Some worker was told 200 or 422 about this payment before step `n`. */
  ghost predicate WasConfirmed(s: State, ls: seq<Label>, n: nat, id: Uuid)
    requires Legal(s, ls)
  {
    exists k: nat, w, answer ::
      k < n && HeardAt(s, ls, k, w, answer, id) && (answer == Response(200) || answer == Response(422))
  }

  predicate Confirming(s: State, id: Uuid) {
    exists w | w in s.workers :: s.workers[w].pc.Confirmed? && s.workers[w].pc.d.id == id
  }

  /** A payment becomes confirmed only by an answer, and completed only once confirmed. */
  lemma ConfirmationArrives(s: State, l: Label, id: Uuid)
    requires Enabled(s, l) && AgentsOk(s) && !Confirming(s, id) && !IsCompleted(s, id)
    ensures !IsCompleted(Do(s, l), id)
    ensures Confirming(Do(s, l), id) ==>
              && l.WorkerDoes? && l.wstep.Hear? && s.workers[l.w].pc.d.id == id
              && (l.wstep.answer == Response(200) || l.wstep.answer == Response(422))
  {
    CompletionNeedsConfirmation(s, l, id);
    if Confirming(Do(s, l), id) {
      var w :| w in Do(s, l).workers && Do(s, l).workers[w].pc.Confirmed? && Do(s, l).workers[w].pc.d.id == id;
      if StepOf(l, w) {
        OnlyHearingConfirms(s, w, l.wstep);
      } else {
        OtherWorkerUnmoved(s, l, w);
        NewWorkersAreIdle(s, l, w);
      }
    }
  }

  lemma NewWorkersAreIdle(s: State, l: Label, w: Owner)
    requires Enabled(s, l) && AgentsOk(s) && !StepOf(l, w) && w in Do(s, l).workers && w !in s.workers
    ensures Do(s, l).workers[w].pc.Idle?
  {
    OtherWorkerUnmoved(s, l, w);
  }

  lemma OtherStepsDoNotConfirm(s: State, w: Owner, step: WorkerStep)
    requires Enabled(s, WorkerDoes(w, step)) && !step.Hear?
    ensures !WorkerDo(s, w, step).workers[w].pc.Confirmed?
  {
  }

  lemma OnlyHearingConfirms(s: State, w: Owner, step: WorkerStep)
    requires Enabled(s, WorkerDoes(w, step)) && WorkerDo(s, w, step).workers[w].pc.Confirmed?
    ensures step.Hear? && (step.answer == Response(200) || step.answer == Response(422))
    ensures s.workers[w].pc.d == WorkerDo(s, w, step).workers[w].pc.d
  {
    if !step.Hear? {
      OtherStepsDoNotConfirm(s, w, step);
    }
  }

  lemma CompletionNeedsConfirmation(s: State, l: Label, id: Uuid)
    requires Enabled(s, l) && AgentsOk(s) && !Confirming(s, id) && !IsCompleted(s, id)
    ensures !IsCompleted(Do(s, l), id)
  {
    if l.WorkerDoes? && l.wstep.Complete? {
      assert WorkerOk(s, s.workers[l.w].pc);
      assert Do(s, l) == CompleteDo(s, l.w, l.wstep.outcome);
    } else if IsCompleted(Do(s, l), id) {
      OnlyCompletionCompletes(s, l, id);
    }
  }

  lemma StillConfirmed(s: State, ls: seq<Label>, n: nat, id: Uuid)
    requires Legal(s, ls) && WasConfirmed(s, ls, n, id)
    ensures WasConfirmed(s, ls, n + 1, id)
  {
  }

  lemma ConfirmedJustNow(cfg: Config, clock: Time, ls: seq<Label>, n: nat, id: Uuid)
    requires Legal(Init(cfg, clock), ls) && n < |ls|
    requires var s := StateAt(Init(cfg, clock), ls, n); !Confirming(s, id) && !IsCompleted(s, id)
    requires var s := StateAt(Init(cfg, clock), ls, n + 1); Confirming(s, id) || IsCompleted(s, id)
    ensures WasConfirmed(Init(cfg, clock), ls, n + 1, id)
  {
    StepAt(Init(cfg, clock), ls, n);
    ReachedAt(cfg, clock, ls, n);
    ConfirmationArrives(StateAt(Init(cfg, clock), ls, n), ls[n], id);
    assert HeardAt(Init(cfg, clock), ls, n, ls[n].w, ls[n].wstep.answer, id);
  }

  lemma {:induction false} ConfirmedBefore(cfg: Config, clock: Time, ls: seq<Label>, n: nat, id: Uuid)
    requires Legal(Init(cfg, clock), ls) && n <= |ls|
    requires var s := StateAt(Init(cfg, clock), ls, n); Confirming(s, id) || IsCompleted(s, id)
    ensures WasConfirmed(Init(cfg, clock), ls, n, id)
    decreases n
  {
    var s := Init(cfg, clock);
    if n == 0 {
      assert false;
    } else {
      var before := StateAt(s, ls, n - 1);
      if Confirming(before, id) || IsCompleted(before, id) {
        ConfirmedBefore(cfg, clock, ls, n - 1, id);
        StillConfirmed(s, ls, n - 1, id);
      } else {
        ConfirmedJustNow(cfg, clock, ls, n - 1, id);
      }
    }
  }

  /** No payment is completed without a processor's 200 or 422 for it. */
  lemma CompletionWasConfirmed(cfg: Config, clock: Time, ls: seq<Label>, id: Uuid)
    requires Legal(Init(cfg, clock), ls) && IsCompleted(Run(Init(cfg, clock), ls), id)
    ensures WasConfirmed(Init(cfg, clock), ls, |ls|, id)
  {
    StateAtEnd(Init(cfg, clock), ls);
    ConfirmedBefore(cfg, clock, ls, |ls|, id);
  }
}

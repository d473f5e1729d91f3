/** The bound on prompt submissions is exact: when the delay plus the processor
    timeout exceeds the claim expiry, two submissions of one payment can be open at
    once in a run that keeps every rule. */
module Sharpness {
  import opened Domain
  import opened Tables
  import opened Routing
  import opened System
  import opened Invariants
  import opened Preservation
  import opened Safety
  import opened Leases
  import opened Drain
  import opened Summaries
  import Audit

  ghost predicate LeadsWithin(s: State, s': State, delay: int, st: Confirmation) {
    exists ls :: Via(s, ls, s', delay, st)
  }

  lemma PromptLeads(s: State, s': State, delay: int, st: Confirmation)
    requires Leads(s, s', st) && delay >= 0
    ensures LeadsWithin(s, s', delay, st)
  {
    var ls :| Via(s, ls, s', 0, st);
    PromptWeakens(s, ls, 0, delay);
    assert Via(s, ls, s', delay, st);
  }

  lemma WithinOn(s: State, s1: State, s2: State, delay: int, st: Confirmation)
    requires LeadsWithin(s, s1, delay, st) && LeadsWithin(s1, s2, delay, st)
    ensures LeadsWithin(s, s2, delay, st)
  {
    var first :| Via(s, first, s1, delay, st);
    var second :| Via(s1, second, s2, delay, st);
    Joined(s, first, s1, second, s2, delay, st);
  }

  /** An idle worker that will select Default. */
  predicate Hand(s: State, w: Owner) {
    && w in s.workers && s.workers[w].pc.Idle?
    && LiveInstance(s, s.workers[w].instance)
    && KnownAvailable(s.replicas.nodes[s.workers[w].instance].cache, Default)
  }

  /** One pending payment in the stream and two idle workers. */
  ghost predicate Stage(s: State, v: Owner, w: Owner, k: Seq) {
    && v != w && Hand(s, v) && Hand(s, w)
    && k in s.stream.messages && s.stream.messages[k] == 0
    && 0 in s.payments && PaymentRowOk(s.payments[0]) && s.payments[0].state.Pending?
  }

  lemma TwoHands(s: State, d: Owner, v: Owner, st: Confirmation) returns (s': State, w: Owner)
    requires Crew(s, d, v)
    ensures Leads(s, s', st) && Crew(s', d, v) && Hand(s', w) && w != v
    ensures s' == s.(workers := s'.workers, names := s'.names)
  {
    w := Unused(s.names + s.workers.Keys);
    var l := StartWorker(w, s.workers[v].instance);
    s' := Do(s, l);
    LeadsTo(s, l, st);
  }

  lemma AcceptStep(s: State, st: Confirmation) returns (s': State)
    requires s.payments == map[] && s.outbox == map[]
    ensures Step(s, Accept(0, 1), s', st)
    ensures s' == s.(payments := map[0 := NewPayment(1, s.clock)],
                     outbox := map[0 := OutboxRow(Waiting, None, None, None)])
  {
    s' := Do(s, Accept(0, 1));
  }

  lemma Stocking(s: State, d: Owner, st: Confirmation) returns (s': State)
    requires d in s.dispatchers && s.dispatchers[d].pc.Seeking? && s.payments == map[] && s.outbox == map[]
    ensures Leads(s, s', st)
    ensures s' == s.(payments := map[0 := NewPayment(1, s.clock)], outbox := s'.outbox, stream := Stored(s.stream, 0),
                     dispatchers := s'.dispatchers)
  {
    var s1 := AcceptStep(s, st);
    var s2 := ClaimRowStep(s1, d, 0, st);
    s' := PublishStep(s2, d, 0, st);
    Three(s, Accept(0, 1), s1, DispatcherDoes(d, ClaimRow(0, true)), s2, DispatcherDoes(d, Publish(true, true)), s',
          st);
  }

  lemma FreshCrew(cfg: Config, st: Confirmation) returns (s: State, d: Owner, v: Owner)
    ensures Leads(Init(cfg, 0), s, st) && Crew(s, d, v)
    ensures s.cfg == cfg && s.payments == map[] && s.outbox == map[]
  {
    InitInv(cfg, 0);
    s, d, v := GettingReady(Init(cfg, 0), st);
  }

  lemma Staging(cfg: Config, st: Confirmation) returns (s: State, v: Owner, w: Owner, k: Seq)
    ensures Leads(Init(cfg, 0), s, st) && Stage(s, v, w, k) && s.cfg == cfg
  {
    var s0 := Init(cfg, 0);
    var s1, d;
    s1, d, v := FreshCrew(cfg, st);
    var s2;
    s2, w := TwoHands(s1, d, v, st);
    LeadsOn(s0, s1, s2, st);
    s := Stocking(s2, d, st);
    LeadsOn(s0, s2, s, st);
    k := s2.stream.last + 1;
  }

  lemma TickStep(s: State, now: Time, st: Confirmation) returns (s': State)
    requires now >= s.clock
    ensures Step(s, Tick(now), s', st) && s' == s.(clock := now)
  {
    s' := Do(s, Tick(now));
  }

  /** A worker takes the payment and holds its claim. */
  lemma Taking(s: State, w: Owner, k: Seq, st: Confirmation) returns (s': State)
    requires Hand(s, w) && k in s.stream.messages && s.stream.messages[k] == 0
    requires 0 in s.payments && PaymentRowOk(s.payments[0]) && !s.payments[0].state.Completed?
    requires s.payments[0].state.Processing? ==> Expired(s.payments[0].claimExpiresAt, s.clock)
    ensures Leads(s, s', st)
    ensures 0 in s'.payments && w in s'.workers
    ensures s' == s.(workers := s.workers[w := s'.workers[w]], payments := s.payments[0 := s'.payments[0]],
                     routes := s'.routes)
    ensures PaymentRowOk(s'.payments[0])
    ensures OwnedBy(s'.payments, 0, w) && s'.payments[0].claimExpiresAt == Some(s.clock + s.cfg.claimExpiry)
    ensures s'.workers[w].pc.Claimed? && s'.workers[w].pc.d == Delivery(k, 0)
    ensures s'.workers[w].pc.claim.takenAt == s.clock
  {
    var s1, s2 := TakingSteps(s, w, k, st);
    s' := ClaimStep(s2, w, st);
    Three(s, WorkerDoes(w, Fetch(k)), s1, WorkerDoes(w, Select), s2, WorkerDoes(w, ClaimIt(Replied)), s', st);
    assert s'.payments == ClaimedPayments(s2.payments, 0, w, s.clock, s.cfg.claimExpiry, Some(Default)) by {
      assert s' == ClaimDo(s2, w, Replied);
    }
  }

  /** After waiting as long as it may, the worker submits. */
  lemma SubmittingLate(s: State, w: Owner, wait: int, delay: int, st: Confirmation) returns (s': State)
    requires w in s.workers && s.workers[w].pc.Claimed? && s.workers[w].pc.claim.takenAt == s.clock
    requires 0 <= wait <= delay
    ensures LeadsWithin(s, s', delay, st)
    ensures w in s'.workers
    ensures s' == s.(clock := s.clock + wait, workers := s.workers[w := s'.workers[w]], books := s'.books)
    ensures s'.workers[w].pc.Submitting? && s'.workers[w].pc.d == s.workers[w].pc.d
    ensures s'.workers[w].pc.deadline == s.clock + wait + s.cfg.processorTimeout
  {
    var s1 := TickStep(s, s.clock + wait, st);
    LeadsTo(s, Tick(s.clock + wait), st);
    PromptLeads(s, s1, delay, st);
    s' := Do(s1, WorkerDoes(w, Submit));
    OneStep(s1, WorkerDoes(w, Submit), delay, st);
    WithinOn(s, s1, s', delay, st);
  }

  lemma FirstOpens(s: State, v: Owner, w: Owner, k: Seq, wait: int, delay: int, st: Confirmation) returns (s': State)
    requires Stage(s, v, w, k) && 0 <= wait <= delay && wait <= s.cfg.claimExpiry
    ensures LeadsWithin(s, s', delay, st)
    ensures s'.clock == s.clock + s.cfg.claimExpiry && s'.cfg == s.cfg
    ensures v in s'.workers && s'.workers[v].pc.Submitting? && s'.workers[v].pc.d == Delivery(k, 0)
    ensures s'.workers[v].pc.deadline == s.clock + wait + s.cfg.processorTimeout
    ensures Hand(s', w) && s'.stream == s.stream
    ensures 0 in s'.payments && PaymentRowOk(s'.payments[0])
    ensures s'.payments[0].state.Processing? && Expired(s'.payments[0].claimExpiresAt, s'.clock)
  {
    var s1 := Taking(s, v, k, st);
    PromptLeads(s, s1, delay, st);
    var s2 := SubmittingLate(s1, v, wait, delay, st);
    WithinOn(s, s1, s2, delay, st);
    var now := s.clock + s.cfg.claimExpiry;
    s' := TickStep(s2, now, st);
    LeadsTo(s2, Tick(now), st);
    PromptLeads(s2, s', delay, st);
    WithinOn(s, s2, s', delay, st);
  }

  lemma SecondOpens(s: State, v: Owner, w: Owner, k: Seq, delay: int, st: Confirmation) returns (s': State)
    requires v != w && v in s.workers && s.workers[v].pc.Submitting? && s.workers[v].pc.d == Delivery(k, 0)
    requires s.clock < s.workers[v].pc.deadline && s.cfg.processorTimeout > 0 && delay >= 0
    requires Hand(s, w) && k in s.stream.messages && s.stream.messages[k] == 0
    requires 0 in s.payments && PaymentRowOk(s.payments[0])
    requires s.payments[0].state.Processing? && Expired(s.payments[0].claimExpiresAt, s.clock)
    ensures LeadsWithin(s, s', delay, st) && OpenSubmission(s', v, 0) && OpenSubmission(s', w, 0)
  {
    var s1 := Taking(s, w, k, st);
    PromptLeads(s, s1, delay, st);
    s' := SubmittingLate(s1, w, 0, delay, st);
    WithinOn(s, s1, s', delay, st);
  }

  /** Two workers have one payment's submission open at once. */
  ghost predicate Overlaps(cfg: Config, ls: seq<Label>, delay: int, v: Owner, w: Owner, id: Uuid) {
    && Legal(Init(cfg, 0), ls) && Monotone(Init(cfg, 0), ls) && Prompt(Init(cfg, 0), ls, delay)
    && v != w
    && OpenSubmission(Run(Init(cfg, 0), ls), v, id) && OpenSubmission(Run(Init(cfg, 0), ls), w, id)
  }

  lemma OverlapExists(cfg: Config, delay: int)
    requires ConfigOk(cfg) && delay >= 0 && delay + cfg.processorTimeout > cfg.claimExpiry
    ensures exists ls, v, w :: Overlaps(cfg, ls, delay, v, w, 0)
  {
    var st: Confirmation := 200;
    var wait := if delay <= cfg.claimExpiry then delay else cfg.claimExpiry;
    var s, v, w, k := Staging(cfg, st);
    PromptLeads(Init(cfg, 0), s, delay, st);
    var s1 := FirstOpens(s, v, w, k, wait, delay, st);
    WithinOn(Init(cfg, 0), s, s1, delay, st);
    var s2 := SecondOpens(s1, v, w, k, delay, st);
    WithinOn(Init(cfg, 0), s1, s2, delay, st);
    var ls :| Via(Init(cfg, 0), ls, s2, delay, st);
    assert Overlaps(cfg, ls, delay, v, w, 0);
  }

  /** Overlapping submissions are ruled out if and only if the delay allowed before a
      submission plus the processor timeout is at most the claim expiry. */
  lemma SubmissionExclusionIsExact(cfg: Config, delay: int)
    requires ConfigOk(cfg) && delay >= 0
    ensures (forall ls, v, w, id :: !Overlaps(cfg, ls, delay, v, w, id)) <==>
            delay + cfg.processorTimeout <= cfg.claimExpiry
  {
    if delay + cfg.processorTimeout <= cfg.claimExpiry {
      forall ls, v, w, id
        ensures !Overlaps(cfg, ls, delay, v, w, id)
      {
        if Overlaps(cfg, ls, delay, v, w, id) {
          SubmissionExclusion(cfg, 0, ls, delay, v, w, id);
        }
      }
    } else {
      OverlapExists(cfg, delay);
    }
  }

  // ----- A lost reply -----

  /** The completion is applied and its reply is lost. */
  lemma CompletingUnheard(s: State, w: Owner, st: Confirmation) returns (s': State)
    requires w in s.workers && s.workers[w].pc.Confirmed? && s.workers[w].pc.claim.payment.id == 0
    requires Completes(s.payments, 0, w, s.workers[w].pc.claim.payment.assignment)
    ensures Leads(s, s', st)
    ensures var p := s.workers[w].pc.claim.payment.assignment;
            |s'.log| == |s.log| + 1
            && s'.log == s.log + [Completion(0, p, s.payments[0].amount, s.payments[0].requestedAt, false)]
  {
    s' := Do(s, WorkerDoes(w, Complete(LostApplied)));
    assert s' == CompleteDo(s, w, LostApplied);
    LeadsTo(s, WorkerDoes(w, Complete(LostApplied)), st);
  }

  /** From a granted claim to a confirmation. */
  lemma Confirming(s: State, w: Owner, st: Confirmation) returns (s': State)
    requires w in s.workers && s.workers[w].pc.Claimed? && s.workers[w].pc.claim.takenAt == s.clock
    ensures Leads(s, s', st)
    ensures s' == s.(workers := s'.workers, books := s'.books) && w in s'.workers
    ensures s'.workers[w].pc == Confirmed(s.workers[w].pc.d, s.workers[w].pc.claim)
  {
    var p := s.workers[w].pc.claim.payment;
    var s1 := SubmitStep(s, w, st);
    var s2 := RecordStep(s1, p.assignment, p.id, st);
    s' := HearStep(s2, w, st);
    Three(s, WorkerDoes(w, Submit), s1, Record(p.assignment, p.id), s2, WorkerDoes(w, Hear(Response(st))), s', st);
  }

  lemma Claiming(s: State, w: Owner, k: Seq, st: Confirmation) returns (s': State)
    requires Hand(s, w) && k in s.stream.messages && s.stream.messages[k] == 0
    requires 0 in s.payments && PaymentRowOk(s.payments[0]) && s.payments[0].state.Pending?
    ensures Leads(s, s', st) && s'.log == s.log && s'.clock == s.clock
    ensures w in s'.workers && s'.workers[w].pc.Claimed? && s'.workers[w].pc.claim.takenAt == s'.clock
    ensures s'.workers[w].pc.claim.payment.id == 0
    ensures Completes(s'.payments, 0, w, s'.workers[w].pc.claim.payment.assignment)
  {
    var s1, s2 := TakingSteps(s, w, k, st);
    s' := ClaimStep(s2, w, st);
    Three(s, WorkerDoes(w, Fetch(k)), s1, WorkerDoes(w, Select), s2, WorkerDoes(w, ClaimIt(Replied)), s', st);
  }

  lemma LosingAReply(cfg: Config, st: Confirmation) returns (s: State, p: Processor)
    ensures Leads(Init(cfg, 0), s, st)
    ensures |s.log| > 0 && s.log[|s.log| - 1].service == p && !s.log[|s.log| - 1].told
  {
    var s0, v, w, k := Staging(cfg, st);
    var s1 := Claiming(s0, w, k, st);
    LeadsOn(Init(cfg, 0), s0, s1, st);
    var s2 := Confirming(s1, w, st);
    LeadsOn(Init(cfg, 0), s1, s2, st);
    p := s2.workers[w].pc.claim.payment.assignment;
    s := CompletingUnheard(s2, w, st);
    LeadsOn(Init(cfg, 0), s2, s, st);
  }

  /** The told-only counters fall short of the summary. */
  ghost predicate CountersFallShort(cfg: Config, ls: seq<Label>, p: Processor) {
    && Legal(Init(cfg, 0), ls) && Monotone(Init(cfg, 0), ls)
    && var s := Run(Init(cfg, 0), ls);
       Audit.LogTally(s, Audit.Told, p, None, None) != SummaryTotal(s.payments, p, None, None)
  }

  /** Under every configuration some prompt run with a clock that never goes back makes
      counters that only a told caller bumps disagree with the summary. */
  lemma CountersCanFallShort(cfg: Config)
    ensures exists ls, p :: CountersFallShort(cfg, ls, p)
  {
    var st: Confirmation := 422;
    var s, p := LosingAReply(cfg, st);
    var ls :| Via(Init(cfg, 0), ls, s, 0, st);
    Audit.CountersAgreeWithScan(cfg, 0, ls, p, None, None);
    Audit.UntoldByRun(Init(cfg, 0), ls, p, None, None);
    assert Audit.Bumps(s.log[|s.log| - 1], Audit.Untold, p, None, None);
    assert CountersFallShort(cfg, ls, p);
  }
}

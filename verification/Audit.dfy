/** The audit: external books, summaries and incremental counters agree. */
module Audit {
  import opened Domain
  import opened Tables
  import opened Summaries
  import opened System
  import opened Invariants
  import opened Preservation
  import opened Safety

  function RecordedIds(b: Book, from: Option<Time>, to: Option<Time>): set<Uuid> {
    set id | id in b.recorded && InWindow(from, to, b.recorded[id].requestedAt)
  }

  function EntryAmounts(b: Book): map<Uuid, int> {
    map id | id in b.recorded :: b.recorded[id].amount
  }

  /** The processor's own view of a window. */
  ghost function BookTotal(b: Book, from: Option<Time>, to: Option<Time>): Total {
    TotalOf(RecordedIds(b, from, to), EntryAmounts(b))
  }

  /** Recorded externally, not yet completed here. */
  ghost predicate InDoubt(s: State, p: Processor, id: Uuid) {
    id in s.books.Of(p).recorded && !IsCompleted(s, id)
  }

  ghost function InDoubtIds(s: State, p: Processor, from: Option<Time>, to: Option<Time>): set<Uuid> {
    set id | id in RecordedIds(s.books.Of(p), from, to) && InDoubt(s, p, id)
  }

  ghost function InDoubtTotal(s: State, p: Processor, from: Option<Time>, to: Option<Time>): Total {
    TotalOf(InDoubtIds(s, p, from, to), EntryAmounts(s.books.Of(p)))
  }

  /** A processor's recorded payments are its completed ones and its in-doubt ones. */
  lemma RecordedSplits(s: State, p: Processor, from: Option<Time>, to: Option<Time>)
    requires BookOk(s, p) && TablesOk(s.payments, s.outbox)
    ensures var completed := CompletedIds(s.payments, p, from, to);
            && RecordedIds(s.books.Of(p), from, to) == completed + InDoubtIds(s, p, from, to)
            && completed !! InDoubtIds(s, p, from, to)
            && (forall id | id in completed :: Amounts(s.payments)[id] == EntryAmounts(s.books.Of(p))[id])
  {
    var b := s.books.Of(p);
    forall id | id in b.recorded
      ensures id in s.payments && b.recorded[id] == Entry(s.payments[id].amount, s.payments[id].requestedAt)
      ensures s.payments[id].state.Completed? ==> s.payments[id].processedBy == Some(p)
    {
      assert b.recorded[id] == b.sent[id];
      assert PaymentRowOk(s.payments[id]);
    }
    forall id | id in CompletedIds(s.payments, p, from, to)
      ensures id in RecordedIds(b, from, to)
    {
      assert id in b.recorded;
    }
  }

  lemma BookIsSummaryPlusDoubt(s: State, p: Processor, from: Option<Time>, to: Option<Time>)
    requires BookOk(s, p) && TablesOk(s.payments, s.outbox)
    ensures BookTotal(s.books.Of(p), from, to) ==
            SummaryTotal(s.payments, p, from, to).Plus(InDoubtTotal(s, p, from, to))
  {
    RecordedSplits(s, p, from, to);
    var completed := CompletedIds(s.payments, p, from, to);
    SumSame(completed, Amounts(s.payments), EntryAmounts(s.books.Of(p)));
    TotalUnion(completed, InDoubtIds(s, p, from, to), EntryAmounts(s.books.Of(p)));
  }

  /** In every reachable state and every window, what a processor has charged is what
      the summary reports plus exactly the in-doubt payments; the two agree if and
      only if nothing in the window is in doubt. */
  lemma AuditConservation(cfg: Config, clock: Time, ls: seq<Label>, p: Processor, from: Option<Time>, to: Option<Time>)
    requires Legal(Init(cfg, clock), ls)
    ensures var s := Run(Init(cfg, clock), ls);
            && BookTotal(s.books.Of(p), from, to) ==
               SummaryTotal(s.payments, p, from, to).Plus(InDoubtTotal(s, p, from, to))
            && (BookTotal(s.books.Of(p), from, to) == SummaryTotal(s.payments, p, from, to) <==>
                InDoubtIds(s, p, from, to) == {})
  {
    ReachedBook(cfg, clock, ls, p);
    BookIsSummaryPlusDoubt(Run(Init(cfg, clock), ls), p, from, to);
  }

  lemma ReachedBook(cfg: Config, clock: Time, ls: seq<Label>, p: Processor)
    requires Legal(Init(cfg, clock), ls)
    ensures var s := Run(Init(cfg, clock), ls); BookOk(s, p) && TablesOk(s.payments, s.outbox)
  {
    Reached(cfg, clock, ls);
    assert p == Default || p == Fallback;
  }

  lemma ReachedLog(cfg: Config, clock: Time, ls: seq<Label>)
    requires Legal(Init(cfg, clock), ls)
    ensures var s := Run(Init(cfg, clock), ls); LogOk(s) && TablesOk(s.payments, s.outbox)
  {
    Reached(cfg, clock, ls);
  }

  // ----- Incremental counters -----

  /** Which completions bump a counter: all that the database applied, those whose
      caller was told, or those whose reply was lost. */
  datatype Who = Applied | Told | Untold

  predicate Bumps(c: Completion, who: Who, p: Processor, from: Option<Time>, to: Option<Time>) {
    && c.service == p && InWindow(from, to, c.requestedAt)
    && (who.Told? ==> c.told) && (who.Untold? ==> !c.told)
  }

  function Bump(c: Completion, who: Who, p: Processor, from: Option<Time>, to: Option<Time>): Total {
    if Bumps(c, who, p, from, to) then Total(1, c.amount) else Total(0, 0)
  }

  /** Counters after the first `n` logged completions, bumped once for each. */
  function Tally(log: seq<Completion>, n: nat, who: Who, p: Processor, from: Option<Time>, to: Option<Time>): Total
    requires n <= |log|
    decreases n
  {
    if n == 0 then Total(0, 0)
    else Tally(log, n - 1, who, p, from, to).Plus(Bump(log[n - 1], who, p, from, to))
  }

  function TalliedIds(log: seq<Completion>, n: nat, p: Processor, from: Option<Time>, to: Option<Time>): set<Uuid>
    requires n <= |log|
  {
    set k | 0 <= k < n && Bumps(log[k], Applied, p, from, to) :: log[k].id
  }

  lemma TalliedAtLast(log: seq<Completion>, n: nat, p: Processor, from: Option<Time>, to: Option<Time>)
    requires 0 < n <= |log|
    ensures TalliedIds(log, n, p, from, to) ==
            TalliedIds(log, n - 1, p, from, to) +
            if Bumps(log[n - 1], Applied, p, from, to) then {log[n - 1].id} else {}
  {
  }

  lemma {:induction false} TallyIsTotal(log: seq<Completion>, n: nat, amounts: map<Uuid, int>, p: Processor,
                                        from: Option<Time>, to: Option<Time>)
    requires n <= |log|
    requires forall k | 0 <= k < |log| :: log[k].id in amounts && amounts[log[k].id] == log[k].amount
    requires forall j, k | 0 <= j < k < |log| :: log[j].id != log[k].id
    ensures TalliedIds(log, n, p, from, to) <= amounts.Keys
    ensures Tally(log, n, Applied, p, from, to) == TotalOf(TalliedIds(log, n, p, from, to), amounts)
    decreases n
  {
    if n > 0 {
      TallyIsTotal(log, n - 1, amounts, p, from, to);
      TalliedAtLast(log, n, p, from, to);
      TallyInserts(TalliedIds(log, n - 1, p, from, to), log[n - 1], amounts, p, from, to);
    }
  }

  lemma TallyInserts(before: set<Uuid>, last: Completion, amounts: map<Uuid, int>, p: Processor,
                     from: Option<Time>, to: Option<Time>)
    requires before <= amounts.Keys && last.id in amounts && amounts[last.id] == last.amount && last.id !in before
    ensures TotalOf(before + (if Bumps(last, Applied, p, from, to) then {last.id} else {}), amounts) ==
            TotalOf(before, amounts).Plus(Bump(last, Applied, p, from, to))
  {
    if Bumps(last, Applied, p, from, to) {
      TotalInsert(before, amounts, last.id);
    } else {
      assert before + {} == before;
    }
  }

  ghost function LogTally(s: State, who: Who, p: Processor, from: Option<Time>, to: Option<Time>): Total {
    Tally(s.log, |s.log|, who, p, from, to)
  }

  lemma LogIsSummary(s: State, p: Processor, from: Option<Time>, to: Option<Time>)
    requires LogOk(s) && TablesOk(s.payments, s.outbox)
    ensures LogTally(s, Applied, p, from, to) == SummaryTotal(s.payments, p, from, to)
  {
    forall k | 0 <= k < |s.log|
      ensures s.log[k].id in s.payments && Amounts(s.payments)[s.log[k].id] == s.log[k].amount
    {
      assert CompletionOk(s, s.log[k]);
    }
    TallyIsTotal(s.log, |s.log|, Amounts(s.payments), p, from, to);
    LoggedIds(s, p, from, to);
  }

  lemma LoggedIds(s: State, p: Processor, from: Option<Time>, to: Option<Time>)
    requires LogOk(s) && TablesOk(s.payments, s.outbox)
    ensures TalliedIds(s.log, |s.log|, p, from, to) == CompletedIds(s.payments, p, from, to)
  {
    forall id | id in CompletedIds(s.payments, p, from, to)
      ensures id in TalliedIds(s.log, |s.log|, p, from, to)
    {
      assert IsCompleted(s, id) && Logged(s.log, id);
      var k :| 0 <= k < |s.log| && s.log[k].id == id;
      assert CompletionOk(s, s.log[k]) && Bumps(s.log[k], Applied, p, from, to);
    }
    forall id | id in TalliedIds(s.log, |s.log|, p, from, to)
      ensures id in CompletedIds(s.payments, p, from, to)
    {
      var k :| 0 <= k < |s.log| && Bumps(s.log[k], Applied, p, from, to) && s.log[k].id == id;
      assert CompletionOk(s, s.log[k]) && PaymentRowOk(s.payments[id]);
    }
  }

  lemma TallyAt(log: seq<Completion>, n: nat, who: Who, p: Processor, from: Option<Time>, to: Option<Time>)
    requires 0 < n <= |log|
    ensures Tally(log, n, who, p, from, to) ==
            Tally(log, n - 1, who, p, from, to).Plus(Bump(log[n - 1], who, p, from, to))
  {
  }

  lemma Interchange(a: Total, b: Total, c: Total, d: Total)
    ensures a.Plus(b).Plus(c.Plus(d)) == a.Plus(c).Plus(b.Plus(d))
  {
  }

  lemma BumpSplits(c: Completion, p: Processor, from: Option<Time>, to: Option<Time>)
    ensures Bump(c, Applied, p, from, to) == Bump(c, Told, p, from, to).Plus(Bump(c, Untold, p, from, to))
  {
  }

  predicate Splits(log: seq<Completion>, n: nat, p: Processor, from: Option<Time>, to: Option<Time>)
    requires n <= |log|
  {
    Tally(log, n, Applied, p, from, to) == Tally(log, n, Told, p, from, to).Plus(Tally(log, n, Untold, p, from, to))
  }

  lemma SplitsOn(log: seq<Completion>, n: nat, p: Processor, from: Option<Time>, to: Option<Time>)
    requires n < |log| && Splits(log, n, p, from, to)
    ensures Splits(log, n + 1, p, from, to)
  {
    var c := log[n];
    BumpSplits(c, p, from, to);
    TallyAt(log, n + 1, Applied, p, from, to);
    TallyAt(log, n + 1, Told, p, from, to);
    TallyAt(log, n + 1, Untold, p, from, to);
    Interchange(Tally(log, n, Told, p, from, to), Tally(log, n, Untold, p, from, to),
                Bump(c, Told, p, from, to), Bump(c, Untold, p, from, to));
  }

  lemma ToldAndUntold(log: seq<Completion>, n: nat, p: Processor, from: Option<Time>, to: Option<Time>)
    requires n <= |log|
    ensures Splits(log, n, p, from, to)
  {
    for k := 0 to n
      invariant Splits(log, k, p, from, to)
    {
      SplitsOn(log, k, p, from, to);
    }
  }

  predicate NoneUntold(log: seq<Completion>, n: nat, p: Processor, from: Option<Time>, to: Option<Time>)
    requires n <= |log|
  {
    forall k | 0 <= k < n :: !Bumps(log[k], Untold, p, from, to)
  }

  lemma LostAtLast(log: seq<Completion>, n: nat, p: Processor, from: Option<Time>, to: Option<Time>)
    requires 0 < n <= |log|
    ensures NoneUntold(log, n, p, from, to) <==>
            NoneUntold(log, n - 1, p, from, to) && !Bumps(log[n - 1], Untold, p, from, to)
  {
  }

  predicate CountsUntold(log: seq<Completion>, n: nat, p: Processor, from: Option<Time>, to: Option<Time>)
    requires n <= |log|
  {
    var untold := Tally(log, n, Untold, p, from, to);
    && untold.requests >= 0
    && (untold.requests == 0 <==> NoneUntold(log, n, p, from, to))
    && (untold.requests == 0 ==> untold == Total(0, 0))
  }

  lemma CountsStart(log: seq<Completion>, p: Processor, from: Option<Time>, to: Option<Time>)
    ensures CountsUntold(log, 0, p, from, to)
  {
  }

  lemma CountsOn(log: seq<Completion>, n: nat, p: Processor, from: Option<Time>, to: Option<Time>)
    requires n < |log| && CountsUntold(log, n, p, from, to)
    ensures CountsUntold(log, n + 1, p, from, to)
  {
    LostAtLast(log, n + 1, p, from, to);
    TallyAt(log, n + 1, Untold, p, from, to);
  }

  lemma UntoldCount(log: seq<Completion>, n: nat, p: Processor, from: Option<Time>, to: Option<Time>)
    requires n <= |log|
    ensures CountsUntold(log, n, p, from, to)
  {
    CountsStart(log, p, from, to);
    for k := 0 to n
      invariant CountsUntold(log, k, p, from, to)
    {
      CountsOn(log, k, p, from, to);
    }
  }

  /** This step completes a payment of `p` in the window and its caller never learns. */
  predicate LosesReply(s: State, l: Label, p: Processor, from: Option<Time>, to: Option<Time>)
    requires Enabled(s, l)
  {
    l.WorkerDoes? && l.wstep.Complete? && l.wstep.outcome.LostApplied? &&
    (var paid := s.workers[l.w].pc.claim.payment;
     && paid.assignment == p
     && Completes(s.payments, paid.id, l.w, p)
     && InWindow(from, to, s.payments[paid.id].requestedAt))
  }

  predicate NoReplyLost(s: State, ls: seq<Label>, p: Processor, from: Option<Time>, to: Option<Time>)
    requires Legal(s, ls)
    decreases ls
  {
    ls == [] || (!LosesReply(s, ls[0], p, from, to) && NoReplyLost(Do(s, ls[0]), ls[1..], p, from, to))
  }

  lemma UntoldAppend(log: seq<Completion>, c: Completion, p: Processor, from: Option<Time>, to: Option<Time>)
    ensures NoneUntold(log + [c], |log| + 1, p, from, to) <==>
            NoneUntold(log, |log|, p, from, to) && !Bumps(c, Untold, p, from, to)
  {
    assert (log + [c])[|log|] == c;
    assert forall k | 0 <= k < |log| :: (log + [c])[k] == log[k];
  }

  lemma UntoldByStep(s: State, l: Label, p: Processor, from: Option<Time>, to: Option<Time>)
    requires Enabled(s, l)
    ensures var log' := Do(s, l).log;
            NoneUntold(log', |log'|, p, from, to) <==>
            NoneUntold(s.log, |s.log|, p, from, to) && !LosesReply(s, l, p, from, to)
  {
    if l.WorkerDoes? && l.wstep.Complete? {
      var log' := CompleteDo(s, l.w, l.wstep.outcome).log;
      if |log'| > |s.log| {
        UntoldAppend(s.log, log'[|s.log|], p, from, to);
      }
    } else {
      LogUntouched(s, l);
    }
  }

  lemma {:induction false} UntoldByRun(s: State, ls: seq<Label>, p: Processor, from: Option<Time>, to: Option<Time>)
    requires Legal(s, ls)
    ensures var log' := Run(s, ls).log;
            NoneUntold(log', |log'|, p, from, to) <==>
            NoneUntold(s.log, |s.log|, p, from, to) && NoReplyLost(s, ls, p, from, to)
    decreases ls
  {
    if ls == [] {
    } else {
      UntoldByStep(s, ls[0], p, from, to);
      UntoldByRun(Do(s, ls[0]), ls[1..], p, from, to);
    }
  }

  /** Counting completions one at a time as the database applies them gives the same
      totals as scanning the table, for every processor and window. Counters that
      only a told caller bumps fall short by exactly the completions whose reply was
      lost, so they agree if and only if no step of the run completed a payment in the
      window and lost the reply. */
  lemma CountersAgreeWithScan(cfg: Config, clock: Time, ls: seq<Label>, p: Processor,
                              from: Option<Time>, to: Option<Time>)
    requires Legal(Init(cfg, clock), ls)
    ensures var s := Run(Init(cfg, clock), ls);
            && LogTally(s, Applied, p, from, to) == SummaryTotal(s.payments, p, from, to)
            && SummaryTotal(s.payments, p, from, to) ==
               LogTally(s, Told, p, from, to).Plus(LogTally(s, Untold, p, from, to))
            && (LogTally(s, Told, p, from, to) == SummaryTotal(s.payments, p, from, to) <==>
                NoReplyLost(Init(cfg, clock), ls, p, from, to))
  {
    ReachedLog(cfg, clock, ls);
    LogCounts(Run(Init(cfg, clock), ls), p, from, to);
    var log := Run(Init(cfg, clock), ls).log;
    UntoldByRun(Init(cfg, clock), ls, p, from, to);
    assert NoneUntold(log, |log|, p, from, to) <==> NoReplyLost(Init(cfg, clock), ls, p, from, to);
  }

  lemma LogCounts(s: State, p: Processor, from: Option<Time>, to: Option<Time>)
    requires LogOk(s) && TablesOk(s.payments, s.outbox)
    ensures LogTally(s, Applied, p, from, to) == SummaryTotal(s.payments, p, from, to)
    ensures SummaryTotal(s.payments, p, from, to) ==
            LogTally(s, Told, p, from, to).Plus(LogTally(s, Untold, p, from, to))
    ensures LogTally(s, Told, p, from, to) == SummaryTotal(s.payments, p, from, to) <==>
            NoneUntold(s.log, |s.log|, p, from, to)
  {
    LogIsSummary(s, p, from, to);
    ToldAndUntold(s.log, |s.log|, p, from, to);
    UntoldCount(s.log, |s.log|, p, from, to);
  }

  lemma {:induction false} TallyOfPrefix(log: seq<Completion>, log': seq<Completion>, n: nat, p: Processor,
                                         from: Option<Time>, to: Option<Time>)
    requires log <= log' && n <= |log|
    ensures Tally(log, n, Applied, p, from, to) == Tally(log', n, Applied, p, from, to)
    decreases n
  {
    if n == 0 {
    } else {
      TallyOfPrefix(log, log', n - 1, p, from, to);
    }
  }

  lemma {:induction false} TallyGrows(log: seq<Completion>, m: nat, n: nat, p: Processor,
                                      from: Option<Time>, to: Option<Time>)
    requires m <= n <= |log| && forall k | 0 <= k < |log| :: log[k].amount > 0
    ensures Tally(log, m, Applied, p, from, to).requests <= Tally(log, n, Applied, p, from, to).requests
    ensures Tally(log, m, Applied, p, from, to).cents <= Tally(log, n, Applied, p, from, to).cents
    decreases n
  {
    if m == n {
    } else {
      TallyGrows(log, m, n - 1, p, from, to);
    }
  }

  lemma LaterLog(cfg: Config, clock: Time, ls: seq<Label>, more: seq<Label>)
    requires Legal(Init(cfg, clock), ls) && Legal(Run(Init(cfg, clock), ls), more)
    ensures var s := Run(Init(cfg, clock), ls);
            var s' := Run(s, more);
            LogOk(s') && TablesOk(s'.payments, s'.outbox) && s.log <= s'.log
  {
    Reached(cfg, clock, ls);
    RunKeepsInv(Run(Init(cfg, clock), ls), more);
  }

  /** No step ever lowers a total of any window. */
  lemma SummariesNeverDecrease(cfg: Config, clock: Time, ls: seq<Label>, more: seq<Label>, p: Processor,
                               from: Option<Time>, to: Option<Time>)
    requires Legal(Init(cfg, clock), ls) && Legal(Run(Init(cfg, clock), ls), more)
    ensures var s := Run(Init(cfg, clock), ls);
            var s' := Run(s, more);
            && SummaryTotal(s.payments, p, from, to).requests <= SummaryTotal(s'.payments, p, from, to).requests
            && SummaryTotal(s.payments, p, from, to).cents <= SummaryTotal(s'.payments, p, from, to).cents
  {
    ReachedLog(cfg, clock, ls);
    var s := Run(Init(cfg, clock), ls);
    LaterLog(cfg, clock, ls, more);
    var s' := Run(s, more);
    LogIsSummary(s, p, from, to);
    LogIsSummary(s', p, from, to);
    forall k | 0 <= k < |s'.log|
      ensures s'.log[k].amount > 0
    {
      assert CompletionOk(s', s'.log[k]) && PaymentRowOk(s'.payments[s'.log[k].id]);
    }
    TallyOfPrefix(s.log, s'.log, |s.log|, p, from, to);
    TallyGrows(s'.log, |s.log|, |s'.log|, p, from, to);
  }
}

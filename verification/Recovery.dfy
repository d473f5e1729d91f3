/** A processor is routable again only after a healthy poll that began after its
    latest passive failure. */
module Recovery {
  import opened Domain
  import opened Tables
  import opened Replication

  function Last(h: seq<Update>): Update
    requires |h| > 0
  {
    h[|h| - 1]
  }

  /** Independent of any clock: an available row was last written by a healthy poll
      that started strictly after the row's passive failure time, and a row without
      such a time has never been failed passively. */
  ghost predicate RecoveredAt(h: seq<Update>) {
    |h| > 0 ==>
      && (Last(h).row.available ==>
            && Last(h).cause.HealthPoll? && Last(h).cause.available
            && (Last(h).row.passiveFailureAt.Some? ==>
                  Last(h).row.passiveFailureAt.value < Last(h).cause.startedAt))
      && (Last(h).row.passiveFailureAt.None? ==> forall k | 0 <= k < |h| :: !h[k].cause.PassiveFailure?)
  }

  ghost predicate RecoveryOk(s: State) {
    RecoveredAt(s.history.default) && RecoveredAt(s.history.fallback)
  }

  /** With a clock that never went back, the stored failure time is the latest one. */
  ghost predicate FailuresOrdered(h: seq<Update>, now: Time) {
    && (forall k | 0 <= k < |h| && h[k].cause.PassiveFailure? ::
          && Last(h).row.passiveFailureAt.Some?
          && h[k].cause.at <= Last(h).row.passiveFailureAt.value)
    && (|h| > 0 && Last(h).row.passiveFailureAt.Some? ==> Last(h).row.passiveFailureAt.value <= now)
  }

  ghost predicate FailuresOk(s: State, now: Time) {
    FailuresOrdered(s.history.default, now) && FailuresOrdered(s.history.fallback, now)
  }

  lemma PassiveKeeps(h: seq<Update>, rows: Cache, p: Processor, now: Time)
    ensures RecoveredAt(h + [Update(PassiveRow(rows, p, now), PassiveFailure(now))])
    ensures FailuresOrdered(h, now) ==>
              FailuresOrdered(h + [Update(PassiveRow(rows, p, now), PassiveFailure(now))], now)
  {
  }

  lemma PollKeeps(s: State, p: Processor, available: bool, startedAt: Time, now: Time)
    requires HistoryOk(s) && RecoveredAt(s.history.Of(p)) && PollRow(s.rows, p, available, startedAt).Some?
    ensures var h' := s.history.Of(p) + [Update(PollRow(s.rows, p, available, startedAt).value,
                                                HealthPoll(available, startedAt))];
            RecoveredAt(h') && (FailuresOrdered(s.history.Of(p), now) ==> FailuresOrdered(h', now))
  {
  }

  /** Any number of concurrent pollers and failing workers keep both facts. */
  lemma StepKeepsRecovery(s: State, l: Label, now: Time)
    requires Enabled(s, l) && HistoryOk(s) && RecoveryOk(s)
    ensures RecoveryOk(Do(s, l, now))
    ensures FailuresOk(s, now) ==> FailuresOk(Do(s, l, now), now)
  {
    if l.Passive? {
      PassiveKeeps(s.history.Of(l.service), s.rows, l.service, now);
    } else if l.Record? {
      var c := s.nodes[l.i].poller;
      if PollRow(s.rows, c.service, c.available, c.startedAt).Some? {
        PollKeeps(s, c.service, c.available, c.startedAt, now);
      }
    } else {
      assert Do(s, l, now).history == s.history;
    }
  }

  /** What an available row says about its past. */
  lemma AvailableMeansRecovered(s: State, p: Processor)
    requires HistoryOk(s) && RecoveryOk(s)
    requires p in s.rows && s.rows[p].available
    ensures var h := s.history.Of(p);
            && |h| > 0
            && Last(h).cause.HealthPoll? && Last(h).cause.available
            && (s.rows[p].passiveFailureAt.Some? ==> s.rows[p].passiveFailureAt.value < Last(h).cause.startedAt)
    ensures forall now, k | FailuresOk(s, now) && 0 <= k < |s.history.Of(p)|
                            && s.history.Of(p)[k].cause.PassiveFailure? ::
              s.history.Of(p)[k].cause.at < Last(s.history.Of(p)).cause.startedAt
  {
  }
}

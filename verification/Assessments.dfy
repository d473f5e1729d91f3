/** What the availability table says, read off the steps of a run: a processor's row is
    the verdict of the last write that was not too old, and counts those writes. */
module Assessments {
  import opened Domain
  import opened Tables
  import opened System
  import opened Invariants
  import opened Preservation
  import opened Safety
  import R = Replication

  /** What the writes so far add up to. */
  datatype Verdict = Unknown | Known(available: bool, writes: nat, failedAt: Option<Time>)

  /** A passive failure of `p` is committed: its worker had heard that `p` failed. */
  predicate Fails(s: State, l: Label, p: Processor)
    requires Enabled(s, l)
  {
    l.WorkerDoes? && l.wstep.ReportFailure? && !l.wstep.outcome.LostUnapplied?
    && s.workers[l.w].pc.claim.payment.assignment == p
  }

  /** A poll's answer about `p` reaches the database. */
  predicate Observes(s: State, l: Label, p: Processor)
    requires Enabled(s, l)
  {
    l.Replicate? && l.l.Record? && s.replicas.nodes[l.l.i].poller.service == p
  }

  function Writes(v: Verdict): nat {
    if v.Known? then v.writes else 0
  }

  function FailedAt(v: Verdict): Option<Time> {
    if v.Known? then v.failedAt else None
  }

  /** A healthy answer counts only if the poll started after the latest failure; an
      unhealthy one always does. */
  function Judge(v: Verdict, healthy: bool, startedAt: Time): Verdict {
    if healthy && FailedAt(v).Some? && startedAt <= FailedAt(v).value then v
    else Known(healthy, Writes(v) + 1, FailedAt(v))
  }

  function AfterStep(s: State, l: Label, p: Processor, v: Verdict): Verdict
    requires Enabled(s, l)
  {
    if Fails(s, l, p) then Known(false, Writes(v) + 1, Some(s.clock))
    else if Observes(s, l, p) then
      Judge(v, s.replicas.nodes[l.l.i].poller.available, s.replicas.nodes[l.l.i].poller.startedAt)
    else v
  }

  function AfterRun(s: State, ls: seq<Label>, p: Processor, v: Verdict): Verdict
    requires Legal(s, ls)
    decreases ls
  {
    if ls == [] then v else AfterRun(Do(s, ls[0]), ls[1..], p, AfterStep(s, ls[0], p, v))
  }

  predicate Says(rows: Cache, p: Processor, v: Verdict) {
    match v
    case Unknown => p !in rows
    case Known(available, writes, failedAt) =>
      && p in rows
      && rows[p].available == available && rows[p].version == writes && rows[p].passiveFailureAt == failedAt
  }

  lemma ReplicaStepSays(r: R.State, l: R.Label, now: Time, p: Processor, v: Verdict)
    requires R.Enabled(r, l) && Says(r.rows, p, v) && R.HistoryOk(r)
    ensures l.Passive? && l.service == p ==> Says(R.Do(r, l, now).rows, p, Known(false, Writes(v) + 1, Some(now)))
    ensures l.Record? && r.nodes[l.i].poller.service == p ==>
              Says(R.Do(r, l, now).rows, p, Judge(v, r.nodes[l.i].poller.available, r.nodes[l.i].poller.startedAt))
    ensures !(l.Passive? && l.service == p) && !(l.Record? && r.nodes[l.i].poller.service == p) ==>
              Says(R.Do(r, l, now).rows, p, v)
  {
    assert R.HistoryOkAt(r, p) by {
      assert p == Default || p == Fallback;
    }
  }

  lemma StepSays(s: State, l: Label, p: Processor, v: Verdict)
    requires Enabled(s, l) && Says(s.replicas.rows, p, v) && R.HistoryOk(s.replicas)
    ensures Says(Do(s, l).replicas.rows, p, AfterStep(s, l, p, v))
  {
    ReplicaStep(s, l);
    var r := ReplicaLabel(s, l);
    if r.Some? {
      ReplicaStepSays(s.replicas, r.value, s.clock, p, v);
    }
  }

  lemma {:induction false} RunSays(s: State, ls: seq<Label>, p: Processor, v: Verdict)
    requires Legal(s, ls) && Inv(s) && Says(s.replicas.rows, p, v)
    ensures Says(Run(s, ls).replicas.rows, p, AfterRun(s, ls, p, v))
    decreases ls
  {
    if ls == [] {
    } else {
      InvHolds(s, ls[0]);
      StepSays(s, ls[0], p, v);
      RunSays(Do(s, ls[0]), ls[1..], p, AfterStep(s, ls[0], p, v));
    }
  }

  /** In every reachable state the table's row for a processor is what the steps of the
      run say: its verdict is the last failure or counted observation, its version the
      number of them, its failure time that of the last failure. In particular an
      unhealthy observation always takes the processor out of routing. */
  lemma RowIsLastWrite(cfg: Config, clock: Time, ls: seq<Label>, p: Processor)
    requires Legal(Init(cfg, clock), ls)
    ensures Says(Run(Init(cfg, clock), ls).replicas.rows, p, AfterRun(Init(cfg, clock), ls, p, Unknown))
  {
    InitInv(cfg, clock);
    RunSays(Init(cfg, clock), ls, p, Unknown);
  }

  /** An unhealthy observation is never rejected, whatever failed before it. */
  lemma UnhealthyIsRecorded(cfg: Config, clock: Time, ls: seq<Label>, i: Instance, replied: bool)
    requires Legal(Init(cfg, clock), ls)
    requires var r := Run(Init(cfg, clock), ls).replicas;
             R.Enabled(r, R.Record(i, replied)) && !r.nodes[i].poller.available
    ensures var s := Run(Init(cfg, clock), ls);
            var p := s.replicas.nodes[i].poller.service;
            var rows := Do(s, Replicate(R.Record(i, replied))).replicas.rows;
            && p in rows && !rows[p].available
            && (p in s.replicas.rows ==> rows[p].version == s.replicas.rows[p].version + 1)
  {
    var s := Run(Init(cfg, clock), ls);
    var p := s.replicas.nodes[i].poller.service;
    Reached(cfg, clock, ls);
    RowIsLastWrite(cfg, clock, ls, p);
    StepSays(s, Replicate(R.Record(i, replied)), p, AfterRun(Init(cfg, clock), ls, p, Unknown));
  }
}

/** Leases on outbox rows. A dispatcher that claimed a row has it to itself for exactly
    the configured time, unless it hands the row back or marks it. */
module RowLeases {
  import opened Domain
  import opened Tables
  import opened System
  import opened Invariants
  import opened Preservation
  import opened Safety

  /** `d` hands this row back. */
  predicate HandsBack(s: State, l: Label, d: Owner, id: Uuid) {
    l == DispatcherDoes(d, Unclaim(true)) && d in s.dispatchers && s.dispatchers[d].pc == Unclaiming(id)
  }

  predicate Marks(s: State, l: Label, d: Owner, id: Uuid) {
    l == DispatcherDoes(d, Mark(true)) && d in s.dispatchers && s.dispatchers[d].pc == Marking(id)
  }

  predicate ClaimsRow(l: Label, id: Uuid) {
    l.DispatcherDoes? && l.dstep.ClaimRow? && l.dstep.id == id
  }

  /** The row is neither handed back nor marked by its claimer, nor claimed again. */
  predicate LeavesAlone(s: State, l: Label, d: Owner, id: Uuid) {
    !HandsBack(s, l, d, id) && !Marks(s, l, d, id) && !ClaimsRow(l, id)
  }

  ghost predicate RowHeld(s: State, d: Owner, id: Uuid, until: Time) {
    && id in s.outbox && s.outbox[id].state.Dispatching?
    && s.outbox[id].claimedBy == Some(d) && s.outbox[id].claimExpiresAt == Some(until)
  }

  ghost predicate RowGone(s: State, id: Uuid) {
    id in s.outbox && s.outbox[id].state.Dispatched?
  }

  lemma ClaimHolds(s: State, d: Owner, id: Uuid, replied: bool)
    requires Enabled(s, DispatcherDoes(d, ClaimRow(id, replied)))
    ensures var s' := Do(s, DispatcherDoes(d, ClaimRow(id, replied)));
            RowHeld(s', d, id, s.clock + s.cfg.outboxExpiry) && s'.clock == s.clock
  {
  }

  lemma DispatcherKeepsRow(s: State, e: Owner, step: DispatcherStep, d: Owner, id: Uuid, until: Time)
    requires Enabled(s, DispatcherDoes(e, step)) && RowHeld(s, d, id, until)
    requires !ClaimsRow(DispatcherDoes(e, step), id) && !HandsBack(s, DispatcherDoes(e, step), d, id)
    ensures Marks(s, DispatcherDoes(e, step), d, id) ==> RowGone(DispatcherDo(s, e, step), id)
    ensures !Marks(s, DispatcherDoes(e, step), d, id) ==> RowHeld(DispatcherDo(s, e, step), d, id, until)
  {
  }

  /** Nobody but its claimer ends the lease, short of a new claim. */
  lemma StepKeepsRow(s: State, l: Label, d: Owner, id: Uuid, until: Time)
    requires Enabled(s, l) && TablesOk(s.payments, s.outbox) && RowHeld(s, d, id, until)
    requires !ClaimsRow(l, id) && !HandsBack(s, l, d, id)
    ensures Marks(s, l, d, id) ==> RowGone(Do(s, l), id)
    ensures !Marks(s, l, d, id) ==> RowHeld(Do(s, l), d, id, until)
  {
    match l
    case DispatcherDoes(e, step) => DispatcherKeepsRow(s, e, step, d, id, until);
    case Accept(_, _) =>
    case _ => OutboxUntouched(s, l);
  }

  lemma GoneStaysGone(s: State, l: Label, id: Uuid)
    requires Enabled(s, l) && Inv(s) && RowGone(s, id)
    ensures RowGone(Do(s, l), id)
  {
    InvHolds(s, l);
  }

  /** While the clock is below `until`, no claim of the row is enabled. */
  lemma NotClaimable(s: State, l: Label, d: Owner, id: Uuid, until: Time)
    requires RowHeld(s, d, id, until) || RowGone(s, id)
    requires s.clock < until && Enabled(s, l)
    ensures !ClaimsRow(l, id)
  {
  }

  // ----- Along a run -----

  lemma {:induction false} MonotoneAt(s: State, ls: seq<Label>, k: nat)
    requires Legal(s, ls) && Monotone(s, ls) && k < |ls|
    ensures ClockForward(StateAt(s, ls, k), ls[k])
    decreases ls
  {
    if k == 0 {
    } else {
      MonotoneAt(Do(s, ls[0]), ls[1..], k - 1);
      assert ls[..k][1..] == ls[1..][..k - 1];
    }
  }

  lemma {:induction false} ClockOnlyForward(s: State, ls: seq<Label>, j: nat, k: nat)
    requires Legal(s, ls) && Monotone(s, ls) && j <= k <= |ls|
    ensures StateAt(s, ls, j).clock <= StateAt(s, ls, k).clock
    decreases k
  {
    if j == k {
    } else {
      ClockOnlyForward(s, ls, j, k - 1);
      MonotoneAt(s, ls, k - 1);
      StepAt(s, ls, k - 1);
      ClockMoves(StateAt(s, ls, k - 1), ls[k - 1]);
    }
  }

  lemma ClaimedAt(cfg: Config, clock: Time, ls: seq<Label>, j: nat, id: Uuid)
    requires Legal(Init(cfg, clock), ls) && j < |ls| && ClaimsRow(ls[j], id)
    ensures var s := Init(cfg, clock);
            RowHeld(StateAt(s, ls, j + 1), ls[j].d, id, StateAt(s, ls, j).clock + cfg.outboxExpiry)
  {
    SameConfig(cfg, clock, ls, j);
    StepAt(Init(cfg, clock), ls, j);
    ClaimStepHolds(StateAt(Init(cfg, clock), ls, j), ls[j], id, StateAt(Init(cfg, clock), ls, j + 1));
  }

  lemma ClaimStepHolds(s: State, l: Label, id: Uuid, s': State)
    requires ClaimsRow(l, id) && Enabled(s, l) && Do(s, l) == s'
    ensures RowHeld(s', l.d, id, s.clock + s.cfg.outboxExpiry)
  {
    ClaimHolds(s, l.d, id, l.dstep.replied);
  }

  lemma SameConfig(cfg: Config, clock: Time, ls: seq<Label>, j: nat)
    requires Legal(Init(cfg, clock), ls) && j <= |ls|
    ensures StateAt(Init(cfg, clock), ls, j).cfg == cfg
  {
    PrefixLegal(Init(cfg, clock), ls, j);
    InitInv(cfg, clock);
    RunKeepsInv(Init(cfg, clock), ls[..j]);
  }

  lemma KeptAt(cfg: Config, clock: Time, ls: seq<Label>, k: nat, d: Owner, id: Uuid, until: Time)
    requires Legal(Init(cfg, clock), ls) && k < |ls|
    requires var s := StateAt(Init(cfg, clock), ls, k);
             && (RowHeld(s, d, id, until) || RowGone(s, id))
             && !HandsBack(s, ls[k], d, id) && (s.clock < until || !ClaimsRow(ls[k], id))
    ensures var s, s' := StateAt(Init(cfg, clock), ls, k), StateAt(Init(cfg, clock), ls, k + 1);
            && (RowHeld(s', d, id, until) || RowGone(s', id))
            && (RowHeld(s, d, id, until) && !Marks(s, ls[k], d, id) ==> RowHeld(s', d, id, until))
  {
    var s := StateAt(Init(cfg, clock), ls, k);
    StepAt(Init(cfg, clock), ls, k);
    ReachedAt(cfg, clock, ls, k);
    if s.clock < until {
      NotClaimable(s, ls[k], d, id, until);
    }
    if RowGone(s, id) {
      GoneStaysGone(s, ls[k], id);
    } else {
      StepKeepsRow(s, ls[k], d, id, until);
    }
  }

  lemma {:induction false} HeldUntil(cfg: Config, clock: Time, ls: seq<Label>, j: nat, k: nat, d: Owner, id: Uuid,
                                     until: Time)
    requires Legal(Init(cfg, clock), ls) && Monotone(Init(cfg, clock), ls) && j <= k <= |ls|
    requires RowHeld(StateAt(Init(cfg, clock), ls, j), d, id, until)
    requires forall m | j <= m < k :: !HandsBack(StateAt(Init(cfg, clock), ls, m), ls[m], d, id)
    requires StateAt(Init(cfg, clock), ls, k).clock < until
    ensures var s := StateAt(Init(cfg, clock), ls, k); RowHeld(s, d, id, until) || RowGone(s, id)
    decreases k
  {
    if j == k {
    } else {
      ClockOnlyForward(Init(cfg, clock), ls, k - 1, k);
      HeldUntil(cfg, clock, ls, j, k - 1, d, id, until);
      KeptAt(cfg, clock, ls, k - 1, d, id, until);
    }
  }

  lemma {:induction false} HeldWhileLeftAlone(cfg: Config, clock: Time, ls: seq<Label>, j: nat, k: nat, d: Owner,
                                              id: Uuid, until: Time)
    requires Legal(Init(cfg, clock), ls) && j <= k <= |ls|
    requires RowHeld(StateAt(Init(cfg, clock), ls, j), d, id, until)
    requires forall m | j <= m < k :: LeavesAlone(StateAt(Init(cfg, clock), ls, m), ls[m], d, id)
    ensures RowHeld(StateAt(Init(cfg, clock), ls, k), d, id, until)
    decreases k
  {
    if j == k {
    } else {
      HeldWhileLeftAlone(cfg, clock, ls, j, k - 1, d, id, until);
      KeptAt(cfg, clock, ls, k - 1, d, id, until);
    }
  }

  /** In any run with a clock that never goes back, two claims of one row are at least the
      expiry time apart, unless the first claimer handed the row back in between; it does
      not matter whether it stopped, or whether its reply was lost. */
  lemma RowLeaseExcludes(cfg: Config, clock: Time, ls: seq<Label>, j: nat, k: nat, id: Uuid)
    requires Legal(Init(cfg, clock), ls) && Monotone(Init(cfg, clock), ls) && j < k < |ls|
    requires ClaimsRow(ls[j], id) && ClaimsRow(ls[k], id)
    requires forall m | j < m < k :: !HandsBack(StateAt(Init(cfg, clock), ls, m), ls[m], ls[j].d, id)
    ensures StateAt(Init(cfg, clock), ls, k).clock >= StateAt(Init(cfg, clock), ls, j).clock + cfg.outboxExpiry
  {
    var s := Init(cfg, clock);
    var until := StateAt(s, ls, j).clock + cfg.outboxExpiry;
    if StateAt(s, ls, k).clock < until {
      ClaimedAt(cfg, clock, ls, j, id);
      HeldUntil(cfg, clock, ls, j + 1, k, ls[j].d, id, until);
      StepAt(s, ls, k);
      NotClaimable(StateAt(s, ls, k), ls[k], ls[j].d, id, until);
    }
  }

  lemma HeldIsClaimable(s: State, d: Owner, id: Uuid, until: Time, e: Owner, again: bool)
    requires RowHeld(s, d, id, until)
    ensures Enabled(s, DispatcherDoes(e, ClaimRow(id, again))) <==>
            e in s.dispatchers && s.dispatchers[e].pc.Seeking? && s.clock >= until
  {
  }

  /** A claimed row that is neither handed back nor marked nor claimed again can be
      claimed by any idle dispatcher if and only if the expiry time has passed since. */
  lemma RowLeaseIsExact(cfg: Config, clock: Time, ls: seq<Label>, j: nat, id: Uuid, e: Owner, again: bool)
    requires Legal(Init(cfg, clock), ls) && j < |ls| && ClaimsRow(ls[j], id)
    requires forall m | j < m < |ls| :: LeavesAlone(StateAt(Init(cfg, clock), ls, m), ls[m], ls[j].d, id)
    ensures var s := Run(Init(cfg, clock), ls);
            Enabled(s, DispatcherDoes(e, ClaimRow(id, again))) <==>
            && e in s.dispatchers && s.dispatchers[e].pc.Seeking?
            && s.clock >= StateAt(Init(cfg, clock), ls, j).clock + cfg.outboxExpiry
  {
    var until := StateAt(Init(cfg, clock), ls, j).clock + cfg.outboxExpiry;
    ClaimedAt(cfg, clock, ls, j, id);
    HeldWhileLeftAlone(cfg, clock, ls, j + 1, |ls|, ls[j].d, id, until);
    StateAtEnd(Init(cfg, clock), ls);
    HeldIsClaimable(Run(Init(cfg, clock), ls), ls[j].d, id, until, e, again);
  }

  /** A row handed back by its owner can be claimed at once; handing back a row that is
      another's by then changes nothing. */
  lemma HandingBackFreesAtOnce(s: State, d: Owner, e: Owner, again: bool)
    requires Enabled(s, DispatcherDoes(d, Unclaim(true)))
    ensures var id := s.dispatchers[d].pc.id;
            var s' := Do(s, DispatcherDoes(d, Unclaim(true)));
            if id in s.outbox && s.outbox[id].state.Dispatching? && s.outbox[id].claimedBy == Some(d) then
              (Enabled(s', DispatcherDoes(e, ClaimRow(id, again))) <==>
               e in s'.dispatchers && s'.dispatchers[e].pc.Seeking?)
            else
              s'.outbox == s.outbox
  {
  }
}

/** The three tables of the schema and the effect of each SQL statement on them,
    as functions of table contents and of the transaction timestamp. */
module Tables {
  import opened Domain

  datatype ProcessingState = Pending | Processing | Completed

  /** A row of `payments`. Every nullable column is an `Option`; how the columns
      depend on each other is `PaymentRowOk`, an invariant and not a type. */
  datatype PaymentRow = PaymentRow(
    amount: int,
    requestedAt: Time,
    state: ProcessingState,
    assignment: Option<Processor>,
    claimedBy: Option<Owner>,
    claimExpiresAt: Option<Time>,
    processedBy: Option<Processor>,
    completedBy: Option<Instance>,
    completedAt: Option<Time>)

  datatype DispatchState = Waiting | Dispatching | Dispatched

  /** A row of `payment_outbox`; `Waiting` is the state 'pending'. */
  datatype OutboxRow = OutboxRow(
    state: DispatchState,
    claimedBy: Option<Owner>,
    claimExpiresAt: Option<Time>,
    dispatchedAt: Option<Time>)

  type Payments = map<Uuid, PaymentRow>
  type Outbox = map<Uuid, OutboxRow>

  ghost predicate PaymentRowOk(r: PaymentRow) {
    && r.amount > 0
    && (r.state.Processing? <==> r.claimedBy.Some?)
    && (r.state.Processing? <==> r.claimExpiresAt.Some?)
    && (r.state.Processing? ==> r.assignment.Some?)
    && (r.state.Completed? <==> r.processedBy.Some?)
    && (r.state.Completed? <==> r.completedBy.Some?)
    && (r.state.Completed? <==> r.completedAt.Some?)
    && (r.state.Completed? ==> r.processedBy == r.assignment)
  }

  ghost predicate OutboxRowOk(r: OutboxRow) {
    && (r.state.Dispatching? <==> r.claimedBy.Some?)
    && (r.state.Dispatching? <==> r.claimExpiresAt.Some?)
    && (r.state.Dispatched? <==> r.dispatchedAt.Some?)
  }

  /** Both payment tables are consistent: every row, and one outbox row per payment. */
  ghost predicate TablesOk(payments: Payments, outbox: Outbox) {
    && outbox.Keys == payments.Keys
    && (forall id | id in payments :: PaymentRowOk(payments[id]))
    && (forall id | id in outbox :: OutboxRowOk(outbox[id]))
  }

  /** A NULL expiry never satisfies `expires <= now()`. */
  predicate Expired(expiresAt: Option<Time>, now: Time) {
    expiresAt.Some? && expiresAt.value <= now
  }

  // ----- Acceptance -----

  function NewPayment(amount: int, now: Time): PaymentRow {
    PaymentRow(amount, now, Pending, None, None, None, None, None, None)
  }

  /** The CHECK constraint and the key decide whether a row is inserted. */
  predicate Inserts(payments: Payments, id: Uuid, amount: int) {
    amount > 0 && id !in payments
  }

  function AcceptedPayments(payments: Payments, id: Uuid, amount: int, now: Time): Payments {
    if Inserts(payments, id, amount) then payments[id := NewPayment(amount, now)] else payments
  }

  function AcceptedOutbox(payments: Payments, outbox: Outbox, id: Uuid, amount: int): Outbox {
    if Inserts(payments, id, amount) then outbox[id := OutboxRow(Waiting, None, None, None)] else outbox
  }

  // ----- Payment leases -----

  /** What `ClaimPayment` answers for a row that exists, stated by cases on the row. */
  function ClaimAnswer(id: Uuid, r: PaymentRow, now: Time, selected: Option<Processor>): PaymentClaim {
    match r.state
    case Completed => PaymentCompleted
    case Pending => Offer(id, r, selected)
    case Processing =>
      if r.assignment.None? && selected.None? then PaymentUnassigned
      else if Expired(r.claimExpiresAt, now) then Offer(id, r, selected)
      else PaymentNotClaimable
  }

  function Offer(id: Uuid, r: PaymentRow, selected: Option<Processor>): PaymentClaim {
    match (r.assignment, selected)
    case (Some(p), _) => PaymentClaimed(Payment(id, r.amount, r.requestedAt, p))
    case (None, Some(p)) => PaymentClaimed(Payment(id, r.amount, r.requestedAt, p))
    case (None, None) => PaymentUnassigned
  }

  function ClaimReply(payments: Payments, id: Uuid, now: Time, selected: Option<Processor>): PaymentClaim {
    if id in payments then ClaimAnswer(id, payments[id], now, selected) else PaymentNotClaimable
  }

  function Leased(r: PaymentRow, owner: Owner, expiresAt: Time, p: Processor): PaymentRow {
    r.(state := Processing, assignment := Some(p), claimedBy := Some(owner), claimExpiresAt := Some(expiresAt))
  }

  function ClaimedPayments(payments: Payments, id: Uuid, owner: Owner, now: Time, expiry: int,
                           selected: Option<Processor>): Payments
  {
    var reply := ClaimReply(payments, id, now, selected);
    if reply.PaymentClaimed? then
      payments[id := Leased(payments[id], owner, now + expiry, reply.payment.assignment)]
    else payments
  }

  predicate OwnedBy(payments: Payments, id: Uuid, owner: Owner) {
    id in payments && payments[id].state.Processing? && payments[id].claimedBy == Some(owner)
  }

  function ReleasedPayments(payments: Payments, id: Uuid, owner: Owner): Payments {
    if OwnedBy(payments, id, owner) then
      payments[id := payments[id].(state := Pending, claimedBy := None, claimExpiresAt := None)]
    else payments
  }

  predicate Completes(payments: Payments, id: Uuid, owner: Owner, p: Processor) {
    OwnedBy(payments, id, owner) && payments[id].assignment == Some(p)
  }

  function CompletedPayments(payments: Payments, id: Uuid, owner: Owner, instance: Instance, p: Processor,
                             now: Time): Payments
  {
    if Completes(payments, id, owner, p) then
      payments[id := payments[id].(state := Completed, processedBy := Some(p), completedBy := Some(instance),
                                   completedAt := Some(now), claimedBy := None, claimExpiresAt := None)]
    else payments
  }

  /** The four answers of one claim statement are told apart by the row alone. */
  lemma ClaimAnswersExactly(payments: Payments, id: Uuid, now: Time, selected: Option<Processor>)
    requires id in payments ==> PaymentRowOk(payments[id])
    ensures var reply := ClaimReply(payments, id, now, selected);
            && (reply.PaymentClaimed? <==>
                && id in payments
                && !payments[id].state.Completed?
                && (payments[id].assignment.Some? || selected.Some?)
                && (payments[id].state.Processing? ==> payments[id].claimExpiresAt.value <= now))
            && (reply.PaymentCompleted? <==> id in payments && payments[id].state.Completed?)
            && (reply.PaymentUnassigned? <==>
                id in payments && payments[id].state.Pending? && payments[id].assignment.None? && selected.None?)
            && (reply.PaymentNotClaimable? <==>
                id in payments ==> payments[id].state.Processing? && now < payments[id].claimExpiresAt.value)
            && (reply.PaymentClaimed? && payments[id].assignment.Some? ==>
                reply.payment.assignment == payments[id].assignment.value)
  {
  }

  // ----- Outbox leases -----

  predicate Dispatchable(r: OutboxRow, now: Time) {
    r.state.Waiting? || (r.state.Dispatching? && Expired(r.claimExpiresAt, now))
  }

  function ClaimedOutbox(outbox: Outbox, id: Uuid, owner: Owner, now: Time, expiry: int): Outbox
    requires id in outbox
  {
    outbox[id := outbox[id].(state := Dispatching, claimedBy := Some(owner), claimExpiresAt := Some(now + expiry))]
  }

  predicate OutboxOwnedBy(outbox: Outbox, id: Uuid, owner: Owner) {
    id in outbox && outbox[id].state.Dispatching? && outbox[id].claimedBy == Some(owner)
  }

  function ReleasedOutbox(outbox: Outbox, id: Uuid, owner: Owner): Outbox {
    if OutboxOwnedBy(outbox, id, owner) then
      outbox[id := outbox[id].(state := Waiting, claimedBy := None, claimExpiresAt := None)]
    else outbox
  }

  function MarkedOutbox(outbox: Outbox, id: Uuid, owner: Owner, now: Time): Outbox {
    if OutboxOwnedBy(outbox, id, owner) then
      outbox[id := OutboxRow(Dispatched, None, None, Some(now))]
    else outbox
  }

  // ----- Processor availability -----

  function PassiveRow(rows: Cache, p: Processor, now: Time): Availability {
    Availability(p, false, if p in rows then rows[p].version + 1 else 1, Some(now))
  }

  /** The row a poll observation leaves, or None when the upsert's WHERE rejects it. */
  function PollRow(rows: Cache, p: Processor, available: bool, startedAt: Time): Option<Availability> {
    if p !in rows then
      Some(Availability(p, available, 1, None))
    else if available && rows[p].passiveFailureAt.Some? && rows[p].passiveFailureAt.value >= startedAt then
      None
    else
      Some(Availability(p, available, rows[p].version + 1, rows[p].passiveFailureAt))
  }

  function PolledRows(rows: Cache, p: Processor, available: bool, startedAt: Time): Cache {
    var row := PollRow(rows, p, available, startedAt);
    if row.Some? then rows[p := row.value] else rows
  }

  // ----- What each statement leaves, column by column -----

  ghost predicate OnlyPayment(payments: Payments, payments': Payments, id: Uuid) {
    payments'.Keys == payments.Keys && forall k | k in payments && k != id :: payments'[k] == payments[k]
  }

  ghost predicate OnlyOutboxRow(outbox: Outbox, outbox': Outbox, id: Uuid) {
    outbox'.Keys == outbox.Keys && forall k | k in outbox && k != id :: outbox'[k] == outbox[k]
  }

  ghost predicate OnlyService(rows: Cache, rows': Cache, p: Processor) {
    rows'.Keys == rows.Keys + {p} && forall q | q in rows && q != p :: rows'[q] == rows[q]
  }

  ghost predicate SamePayment(r: PaymentRow, r': PaymentRow) {
    r'.amount == r.amount && r'.requestedAt == r.requestedAt
  }

  ghost predicate SameCompletion(r: PaymentRow, r': PaymentRow) {
    r'.processedBy == r.processedBy && r'.completedBy == r.completedBy && r'.completedAt == r.completedAt
  }

  /** A new payment is pending and unassigned, and its outbox row waits. */
  ghost predicate PaymentAccepted(payments: Payments, payments': Payments, outbox: Outbox, outbox': Outbox, id: Uuid,
                                  amount: int, now: Time)
  {
    if amount > 0 && id !in payments then
      && payments' == payments[id := PaymentRow(amount, now, Pending, None, None, None, None, None, None)]
      && outbox' == outbox[id := OutboxRow(Waiting, None, None, None)]
    else
      payments' == payments && outbox' == outbox
  }

  /** The lease runs for `expiry` from now on, and an assignment is written only once. */
  ghost predicate PaymentLeased(payments: Payments, payments': Payments, id: Uuid, owner: Owner, now: Time,
                                expiry: int, selected: Option<Processor>)
  {
    if id in payments && !payments[id].state.Completed? && (payments[id].assignment.Some? || selected.Some?)
       && (payments[id].state.Processing? ==>
             payments[id].claimExpiresAt.Some? && payments[id].claimExpiresAt.value <= now)
    then
      && OnlyPayment(payments, payments', id)
      && var r, r' := payments[id], payments'[id];
         && r'.state.Processing? && r'.claimedBy == Some(owner) && r'.claimExpiresAt == Some(now + expiry)
         && r'.assignment == (if r.assignment.Some? then r.assignment else selected)
         && SamePayment(r, r') && SameCompletion(r, r')
    else
      payments' == payments
  }

  /** A release by the owner makes the payment pending at once and keeps everything else
      about it; a release by anyone else does nothing. */
  ghost predicate PaymentFreed(payments: Payments, payments': Payments, id: Uuid, owner: Owner) {
    if id in payments && payments[id].state.Processing? && payments[id].claimedBy == Some(owner) then
      && OnlyPayment(payments, payments', id)
      && var r, r' := payments[id], payments'[id];
         && r'.state.Pending? && r'.claimedBy.None? && r'.claimExpiresAt.None?
         && r'.assignment == r.assignment && SamePayment(r, r') && SameCompletion(r, r')
    else
      payments' == payments
  }

  ghost predicate PaymentFinished(payments: Payments, payments': Payments, id: Uuid, owner: Owner, instance: Instance,
                                  p: Processor, now: Time)
  {
    if id in payments && payments[id].state.Processing? && payments[id].claimedBy == Some(owner)
       && payments[id].assignment == Some(p)
    then
      && OnlyPayment(payments, payments', id)
      && var r, r' := payments[id], payments'[id];
         && r'.state.Completed? && r'.claimedBy.None? && r'.claimExpiresAt.None?
         && r'.processedBy == Some(p) && r'.completedBy == Some(instance) && r'.completedAt == Some(now)
         && r'.assignment == r.assignment && SamePayment(r, r')
    else
      payments' == payments
  }

  ghost predicate RowLeased(outbox: Outbox, outbox': Outbox, id: Uuid, owner: Owner, now: Time, expiry: int) {
    && id in outbox && OnlyOutboxRow(outbox, outbox', id)
    && var r, r' := outbox[id], outbox'[id];
       && r'.state.Dispatching? && r'.claimedBy == Some(owner) && r'.claimExpiresAt == Some(now + expiry)
       && r'.dispatchedAt == r.dispatchedAt
  }

  ghost predicate RowFreed(outbox: Outbox, outbox': Outbox, id: Uuid, owner: Owner) {
    if id in outbox && outbox[id].state.Dispatching? && outbox[id].claimedBy == Some(owner) then
      && OnlyOutboxRow(outbox, outbox', id)
      && var r, r' := outbox[id], outbox'[id];
         && r'.state.Waiting? && r'.claimedBy.None? && r'.claimExpiresAt.None?
         && r'.dispatchedAt == r.dispatchedAt
    else
      outbox' == outbox
  }

  ghost predicate RowDispatched(outbox: Outbox, outbox': Outbox, id: Uuid, owner: Owner, now: Time) {
    if id in outbox && outbox[id].state.Dispatching? && outbox[id].claimedBy == Some(owner) then
      && OnlyOutboxRow(outbox, outbox', id)
      && var r' := outbox'[id];
         r'.state.Dispatched? && r'.claimedBy.None? && r'.claimExpiresAt.None? && r'.dispatchedAt == Some(now)
    else
      outbox' == outbox
  }

  /** A healthy observation that started no later than the failure on record. */
  predicate TooOld(rows: Cache, p: Processor, available: bool, startedAt: Time) {
    available && p in rows && rows[p].passiveFailureAt.Some? && rows[p].passiveFailureAt.value >= startedAt
  }

  /** Only a healthy observation can be too old; any other is recorded as observed, one
      version on, and leaves the failure time alone. */
  ghost predicate PollWritten(rows: Cache, rows': Cache, p: Processor, available: bool, startedAt: Time) {
    if TooOld(rows, p, available, startedAt) then
      rows' == rows
    else
      && OnlyService(rows, rows', p)
      && rows'[p].service == p && rows'[p].available == available
      && rows'[p].version == (if p in rows then rows[p].version + 1 else 1)
      && rows'[p].passiveFailureAt == (if p in rows then rows[p].passiveFailureAt else None)
  }

  ghost predicate FailureWritten(rows: Cache, rows': Cache, p: Processor, now: Time) {
    && OnlyService(rows, rows', p)
    && rows'[p].service == p && !rows'[p].available && rows'[p].passiveFailureAt == Some(now)
    && rows'[p].version == (if p in rows then rows[p].version + 1 else 1)
  }

  // ----- What every statement keeps -----

  /** Facts about a row that no statement ever undoes. */
  ghost predicate RowExtends(r: PaymentRow, r': PaymentRow) {
    && r'.amount == r.amount
    && r'.requestedAt == r.requestedAt
    && (r.assignment.Some? ==> r'.assignment == r.assignment)
    && (r.state.Completed? ==> r' == r)
  }

  ghost predicate PaymentsExtend(payments: Payments, payments': Payments) {
    forall id | id in payments :: id in payments' && RowExtends(payments[id], payments'[id])
  }

  ghost predicate OutboxExtends(outbox: Outbox, outbox': Outbox) {
    forall id | id in outbox :: id in outbox' && (outbox[id].state.Dispatched? ==> outbox'[id] == outbox[id])
  }

  ghost predicate StatementKeeps(payments: Payments, outbox: Outbox, payments': Payments, outbox': Outbox) {
    && TablesOk(payments', outbox')
    && PaymentsExtend(payments, payments')
    && OutboxExtends(outbox, outbox')
  }

  /** Replacing one payment row by a consistent row that extends it keeps the tables. */
  lemma PaymentUpdateKeeps(payments: Payments, outbox: Outbox, id: Uuid, row: PaymentRow)
    requires TablesOk(payments, outbox) && id in payments
    requires PaymentRowOk(row) && RowExtends(payments[id], row)
    ensures StatementKeeps(payments, outbox, payments[id := row], outbox)
  {
  }

  lemma OutboxUpdateKeeps(payments: Payments, outbox: Outbox, id: Uuid, row: OutboxRow)
    requires TablesOk(payments, outbox) && id in outbox
    requires OutboxRowOk(row) && !outbox[id].state.Dispatched?
    ensures StatementKeeps(payments, outbox, payments, outbox[id := row])
  {
  }

  /** Every statement on the two payment tables keeps their consistency, their
      terminal rows, every amount and timestamp, and every assignment. */
  lemma AcceptKeeps(payments: Payments, outbox: Outbox, id: Uuid, amount: int, now: Time)
    requires TablesOk(payments, outbox)
    ensures StatementKeeps(payments, outbox,
                           AcceptedPayments(payments, id, amount, now), AcceptedOutbox(payments, outbox, id, amount))
  {
  }

  lemma ClaimKeeps(payments: Payments, outbox: Outbox, id: Uuid, owner: Owner, now: Time, expiry: int,
                   selected: Option<Processor>)
    requires TablesOk(payments, outbox)
    ensures StatementKeeps(payments, outbox, ClaimedPayments(payments, id, owner, now, expiry, selected), outbox)
  {
    var reply := ClaimReply(payments, id, now, selected);
    if reply.PaymentClaimed? {
      PaymentUpdateKeeps(payments, outbox, id, Leased(payments[id], owner, now + expiry, reply.payment.assignment));
    }
  }

  lemma ReleaseKeeps(payments: Payments, outbox: Outbox, id: Uuid, owner: Owner)
    requires TablesOk(payments, outbox)
    ensures StatementKeeps(payments, outbox, ReleasedPayments(payments, id, owner), outbox)
  {
  }

  lemma CompleteKeeps(payments: Payments, outbox: Outbox, id: Uuid, owner: Owner, instance: Instance, p: Processor,
                      now: Time)
    requires TablesOk(payments, outbox)
    ensures StatementKeeps(payments, outbox, CompletedPayments(payments, id, owner, instance, p, now), outbox)
  {
  }

  lemma OutboxStatementsKeep(payments: Payments, outbox: Outbox, id: Uuid, owner: Owner, now: Time, expiry: int)
    requires TablesOk(payments, outbox)
    ensures id in outbox && Dispatchable(outbox[id], now) ==>
              StatementKeeps(payments, outbox, payments, ClaimedOutbox(outbox, id, owner, now, expiry))
    ensures StatementKeeps(payments, outbox, payments, ReleasedOutbox(outbox, id, owner))
    ensures StatementKeeps(payments, outbox, payments, MarkedOutbox(outbox, id, owner, now))
  {
    if id in outbox && Dispatchable(outbox[id], now) {
      OutboxUpdateKeeps(payments, outbox, id, ClaimedOutbox(outbox, id, owner, now, expiry)[id]);
    }
    if OutboxOwnedBy(outbox, id, owner) {
      OutboxUpdateKeeps(payments, outbox, id, ReleasedOutbox(outbox, id, owner)[id]);
      OutboxUpdateKeeps(payments, outbox, id, MarkedOutbox(outbox, id, owner, now)[id]);
    }
  }

  /** Accepting a stored correlation ID changes nothing, and acceptances of different
      payments may be committed in either order. */
  lemma AcceptIsIdempotent(payments: Payments, outbox: Outbox, id: Uuid, amount: int, again: int, now: Time,
                           later: Time, other: Uuid)
    ensures var payments' := AcceptedPayments(payments, id, amount, now);
            var outbox' := AcceptedOutbox(payments, outbox, id, amount);
            && (id in payments' ==>
                  && AcceptedPayments(payments', id, again, later) == payments'
                  && AcceptedOutbox(payments', outbox', id, again) == outbox')
            && (other != id ==>
                  var swapped := AcceptedPayments(payments, other, again, later);
                  && AcceptedPayments(payments', other, again, later) == AcceptedPayments(swapped, id, amount, now)
                  && AcceptedOutbox(payments', outbox', other, again) ==
                     AcceptedOutbox(swapped, AcceptedOutbox(payments, outbox, other, again), id, amount))
  {
  }
}

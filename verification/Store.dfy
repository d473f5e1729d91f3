/** The durable store. Each method is one SQL statement of the store, written with
    the statement's own common table expressions and guards and proved against the
    table functions of `Tables`. The transaction timestamp is a parameter. */
module Stores {
  import opened Domain
  import opened Tables
  import opened Summaries

  datatype AcceptResult = Accepted | Rejected

  /** One row of the grouped summary query. */
  datatype Group = Group(service: Processor, total: Total)

  datatype SummaryResult = SummaryOk(default: Total, fallback: Total) | SummaryError

  /** Scanning a NUMERIC sum into an int64 fails when it does not fit. */
  predicate FitsInt64(total: Total) {
    MIN_INT64 <= total.cents <= MAX_INT64
  }

  predicate HasGroup(groups: seq<Group>, p: Processor) {
    exists k :: 0 <= k < |groups| && groups[k].service == p
  }

  lemma ScanOne(ids: set<Uuid>, rest: set<Uuid>, amounts: map<Uuid, int>, id: Uuid)
    requires ids <= amounts.Keys && id in rest
    ensures TotalOf(ids - (rest - {id}), amounts) ==
            if id in ids then TotalOf(ids - rest, amounts).Plus(Total(1, amounts[id])) else TotalOf(ids - rest, amounts)
  {
    if id in ids {
      TotalInsert(ids - rest, amounts, id);
      assert ids - (rest - {id}) == ids - rest + {id};
    } else {
      assert ids - (rest - {id}) == ids - rest;
    }
  }

  predicate IsLeast(least: Uuid, ids: set<Uuid>) {
    least in ids && forall id | id in ids :: least <= id
  }

  lemma LeastExists(ids: set<Uuid>)
    requires ids != {}
    ensures exists least :: IsLeast(least, ids)
  {
    var x :| x in ids;
    var rest := ids - {x};
    if rest == {} {
      assert ids == {x};
      assert IsLeast(x, ids);
    } else {
      LeastExists(rest);
      var y :| IsLeast(y, rest);
      assert ids == rest + {x};
      assert IsLeast(if x <= y then x else y, ids);
    }
  }

  class Store {
    var payments: Payments
    var outbox: Outbox
    var availability: Cache

    ghost predicate Valid()
      reads this
    {
      TablesOk(payments, outbox)
    }

    constructor ()
      ensures Valid()
      ensures payments == map[] && outbox == map[] && availability == map[]
    {
      payments, outbox, availability := map[], map[], map[];
    }

    method Accept(id: Uuid, amount: int, now: Time) returns (result: AcceptResult)
      requires Valid()
      modifies this`payments, this`outbox
      ensures Valid()
      ensures result.Accepted? <==> amount > 0
      ensures payments == AcceptedPayments(old(payments), id, amount, now)
      ensures outbox == AcceptedOutbox(old(payments), old(outbox), id, amount)
      ensures PaymentAccepted(old(payments), payments, old(outbox), outbox, id, amount, now)
      ensures PaymentsExtend(old(payments), payments) && OutboxExtends(old(outbox), outbox)
    {
      if amount <= 0 {
        return Rejected;
      }
      var insertedPayment := {};
      if id !in payments {
        payments := payments[id := PaymentRow(amount, now, Pending, None, None, None, None, None, None)];
        insertedPayment := {id};
      }
      outbox := outbox + (map k | k in insertedPayment :: OutboxRow(Waiting, None, None, None));
      return Accepted;
    }

    /** `locked` is the set of rows that other open transactions hold, which
        SKIP LOCKED passes over. */
    method ClaimOutbox(owner: Owner, now: Time, expiry: int, locked: set<Uuid>) returns (claimed: Option<Uuid>)
      requires Valid()
      modifies this`outbox
      ensures Valid()
      ensures claimed.None? <==>
              forall id | id in old(outbox) && id !in locked :: !Dispatchable(old(outbox)[id], now)
      ensures claimed.None? ==> outbox == old(outbox)
      ensures claimed.Some? ==>
                && claimed.value in old(outbox)
                && claimed.value !in locked
                && Dispatchable(old(outbox)[claimed.value], now)
                && (forall id | id in old(outbox) && id !in locked && Dispatchable(old(outbox)[id], now) ::
                      claimed.value <= id)
                && outbox == ClaimedOutbox(old(outbox), claimed.value, owner, now, expiry)
                && RowLeased(old(outbox), outbox, claimed.value, owner, now, expiry)
      ensures OutboxExtends(old(outbox), outbox)
    {
      var dispatchable := set id | id in outbox && id !in locked
                                   && (outbox[id].state == Waiting
                                       || (outbox[id].state == Dispatching && Expired(outbox[id].claimExpiresAt, now)));
      if dispatchable == {} {
        assert forall id | id in outbox && id !in locked :: id !in dispatchable;
        return None;
      }
      LeastExists(dispatchable);
      assert forall id | id in outbox && id !in locked && Dispatchable(outbox[id], now) :: id in dispatchable;
      var candidate :| candidate in dispatchable && IsLeast(candidate, dispatchable);
      outbox := outbox[candidate := outbox[candidate].(state := Dispatching, claimedBy := Some(owner),
                                                       claimExpiresAt := Some(now + expiry))];
      return Some(candidate);
    }

    method ReleaseOutbox(id: Uuid, owner: Owner)
      requires Valid()
      modifies this`outbox
      ensures Valid()
      ensures outbox == ReleasedOutbox(old(outbox), id, owner)
      ensures RowFreed(old(outbox), outbox, id, owner)
      ensures OutboxExtends(old(outbox), outbox)
    {
      if id in outbox && outbox[id].state == Dispatching && outbox[id].claimedBy == Some(owner) {
        outbox := outbox[id := outbox[id].(state := Waiting, claimedBy := None, claimExpiresAt := None)];
      }
    }

    method MarkOutboxDispatched(id: Uuid, owner: Owner, now: Time) returns (marked: bool)
      requires Valid()
      modifies this`outbox
      ensures Valid()
      ensures marked <==> OutboxOwnedBy(old(outbox), id, owner)
      ensures outbox == MarkedOutbox(old(outbox), id, owner, now)
      ensures RowDispatched(old(outbox), outbox, id, owner, now)
      ensures OutboxExtends(old(outbox), outbox)
    {
      marked := id in outbox && outbox[id].state == Dispatching && outbox[id].claimedBy == Some(owner);
      if marked {
        outbox := outbox[id := outbox[id].(state := Dispatched, claimedBy := None, claimExpiresAt := None,
                                           dispatchedAt := Some(now))];
      }
    }

    /** One statement: the locked candidate row, the guarded update with COALESCE,
        and the classification of a candidate that was not updated. */
    method ClaimPayment(id: Uuid, owner: Owner, now: Time, expiry: int, selected: Option<Processor>)
      returns (claim: PaymentClaim)
      requires Valid()
      modifies this`payments
      ensures Valid()
      ensures claim == ClaimReply(old(payments), id, now, selected)
      ensures payments == ClaimedPayments(old(payments), id, owner, now, expiry, selected)
      ensures PaymentLeased(old(payments), payments, id, owner, now, expiry, selected)
      ensures PaymentsExtend(old(payments), payments)
    {
      if id !in payments {
        return PaymentNotClaimable;
      }
      var candidate := payments[id];
      var claimed := None;
      if (candidate.assignment != None || selected != None)
         && (candidate.state == Pending
             || (candidate.state == Processing && Expired(candidate.claimExpiresAt, now)))
      {
        var coalesced := if candidate.assignment != None then candidate.assignment else selected;
        var row := candidate.(state := Processing, assignment := coalesced, claimedBy := Some(owner),
                              claimExpiresAt := Some(now + expiry));
        payments := payments[id := row];
        claimed := Some(row);
      }
      if claimed.Some? {
        return PaymentClaimed(Payment(id, claimed.value.amount, claimed.value.requestedAt,
                                      claimed.value.assignment.value));
      }
      if candidate.state == Completed {
        return PaymentCompleted;
      }
      if candidate.assignment == None && selected == None {
        return PaymentUnassigned;
      }
      return PaymentNotClaimable;
    }

    method ReleasePayment(id: Uuid, owner: Owner) returns (released: bool)
      requires Valid()
      modifies this`payments
      ensures Valid()
      ensures released <==> OwnedBy(old(payments), id, owner)
      ensures payments == ReleasedPayments(old(payments), id, owner)
      ensures PaymentFreed(old(payments), payments, id, owner)
      ensures PaymentsExtend(old(payments), payments)
    {
      released := id in payments && payments[id].state == Processing && payments[id].claimedBy == Some(owner);
      if released {
        payments := payments[id := payments[id].(state := Pending, claimedBy := None, claimExpiresAt := None)];
      }
    }

    method CompletePayment(id: Uuid, owner: Owner, instance: Instance, service: Processor, now: Time)
      returns (completed: bool)
      requires Valid()
      modifies this`payments
      ensures Valid()
      ensures completed <==> Completes(old(payments), id, owner, service)
      ensures payments == CompletedPayments(old(payments), id, owner, instance, service, now)
      ensures PaymentFinished(old(payments), payments, id, owner, instance, service, now)
      ensures PaymentsExtend(old(payments), payments)
    {
      completed := id in payments && payments[id].state == Processing && payments[id].claimedBy == Some(owner)
                   && payments[id].assignment == Some(service);
      if completed {
        payments := payments[id := payments[id].(state := Completed, processedBy := Some(service),
                                                 completedBy := Some(instance), completedAt := Some(now),
                                                 claimedBy := None, claimExpiresAt := None)];
      }
    }

    /** The query: one group per processor that completed anything in the window. */
    method GroupCompleted(from: Option<Time>, to: Option<Time>, fallbackFirst: bool) returns (groups: seq<Group>)
      ensures forall k | 0 <= k < |groups| ::
                && groups[k].total == SummaryTotal(payments, groups[k].service, from, to)
                && groups[k].total.requests > 0
      ensures CompletedIds(payments, Default, from, to) != {} ==> HasGroup(groups, Default)
      ensures CompletedIds(payments, Fallback, from, to) != {} ==> HasGroup(groups, Fallback)
      ensures forall j, k | 0 <= j < k < |groups| :: groups[j].service != groups[k].service
    {
      var default := TotalCompleted(Default, from, to);
      var fallback := TotalCompleted(Fallback, from, to);
      var first := if default.requests > 0 then [Group(Default, default)] else [];
      var second := if fallback.requests > 0 then [Group(Fallback, fallback)] else [];
      groups := if fallbackFirst then second + first else first + second;
      assert default.requests > 0 ==> Group(Default, default) in groups;
      assert fallback.requests > 0 ==> Group(Fallback, fallback) in groups;
    }

    /** COUNT and SUM of one group, by scanning the table in any order. */
    method TotalCompleted(p: Processor, from: Option<Time>, to: Option<Time>) returns (total: Total)
      ensures total == SummaryTotal(payments, p, from, to)
      ensures Audited(payments, p, from, to, total)
    {
      total := Total(0, 0);
      var rest := payments.Keys;
      ghost var ids, amounts := CompletedIds(payments, p, from, to), Amounts(payments);
      assert ids - rest == {};
      while rest != {}
        invariant rest <= payments.Keys
        invariant total == TotalOf(ids - rest, amounts)
        decreases rest
      {
        var id :| id in rest;
        ScanOne(ids, rest, amounts, id);
        if Counts(payments[id], p, from, to) {
          total := total.Plus(Total(1, payments[id].amount));
        }
        rest := rest - {id};
      }
      assert ids - rest == ids;
      SummaryMeans(payments, p, from, to);
    }

    /** Accumulates the groups, in whatever order they arrive, into the summary. */
    method PaymentSummary(from: Option<Time>, to: Option<Time>, fallbackFirst: bool) returns (summary: SummaryResult)
      ensures summary.SummaryOk? ==>
                && Audited(payments, Default, from, to, summary.default)
                && Audited(payments, Fallback, from, to, summary.fallback)
      ensures summary.SummaryOk? <==>
                && FitsInt64(SummaryTotal(payments, Default, from, to))
                && FitsInt64(SummaryTotal(payments, Fallback, from, to))
      ensures summary.SummaryOk? ==>
                && summary.default == SummaryTotal(payments, Default, from, to)
                && summary.fallback == SummaryTotal(payments, Fallback, from, to)
    {
      var groups := GroupCompleted(from, to, fallbackFirst);
      var default, fallback := Total(0, 0), Total(0, 0);
      var i := 0;
      while i < |groups|
        invariant 0 <= i <= |groups|
        invariant forall k | 0 <= k < i :: FitsInt64(groups[k].total)
        invariant default == if HasGroup(groups[..i], Default) then SummaryTotal(payments, Default, from, to)
                             else Total(0, 0)
        invariant fallback == if HasGroup(groups[..i], Fallback) then SummaryTotal(payments, Fallback, from, to)
                              else Total(0, 0)
      {
        var group := groups[i];
        if !FitsInt64(group.total) {
          assert group.service == Default || group.service == Fallback;
          return SummaryError;
        }
        assert forall p :: HasGroup(groups[..i + 1], p) <==> HasGroup(groups[..i], p) || group.service == p by {
          assert groups[..i + 1] == groups[..i] + [group];
        }
        match group.service {
          case Default => default := group.total;
          case Fallback => fallback := group.total;
        }
        i := i + 1;
      }
      assert groups[..i] == groups;
      SummaryMeans(payments, Default, from, to);
      SummaryMeans(payments, Fallback, from, to);
      return SummaryOk(default, fallback);
    }

    /** Every stored row once, in no particular order. */
    method ReadProcessorAvailability() returns (states: seq<Availability>)
      ensures forall p | p in availability :: availability[p] in states
      ensures forall k | 0 <= k < |states| :: exists p :: p in availability && availability[p] == states[k]
      ensures |states| == |availability|
    {
      var services := availability.Keys;
      states := [];
      while services != {}
        invariant services <= availability.Keys
        invariant forall p | p in availability.Keys - services :: availability[p] in states
        invariant forall k | 0 <= k < |states| :: exists p :: p in availability && availability[p] == states[k]
        invariant |states| + |services| == |availability|
        decreases services
      {
        var p :| p in services;
        services := services - {p};
        states := states + [availability[p]];
      }
    }

    method RecordPassiveFailure(service: Processor, now: Time) returns (state: Availability)
      modifies this`availability
      ensures state == PassiveRow(old(availability), service, now)
      ensures availability == old(availability)[service := state]
      ensures FailureWritten(old(availability), availability, service, now)
    {
      if service !in availability {
        state := Availability(service, false, 1, Some(now));
      } else {
        state := availability[service].(service := service, available := false,
                                        version := availability[service].version + 1, passiveFailureAt := Some(now));
      }
      availability := availability[service := state];
    }

    method RecordPollObservation(service: Processor, available: bool, startedAt: Time)
      returns (state: Option<Availability>)
      modifies this`availability
      ensures state == PollRow(old(availability), service, available, startedAt)
      ensures availability == PolledRows(old(availability), service, available, startedAt)
      ensures state.None? <==>
              && available && service in old(availability)
              && old(availability)[service].passiveFailureAt.Some?
              && old(availability)[service].passiveFailureAt.value >= startedAt
      ensures state.Some? ==> service in availability && availability[service] == state.value
      ensures PollWritten(old(availability), availability, service, available, startedAt)
    {
      if service !in availability {
        state := Some(Availability(service, available, 1, None));
      } else {
        var row := availability[service];
        if !available || row.passiveFailureAt == None || row.passiveFailureAt.value < startedAt {
          state := Some(Availability(service, available, row.version + 1, row.passiveFailureAt));
        } else {
          state := None;
        }
      }
      if state.Some? {
        availability := availability[service := state.value];
      }
    }
  }
}

/** Totals of sets of payments, and the completed-payment summary as a set. */
module Summaries {
  import opened Domain
  import opened Tables

  /** The bounds filter only when both are given. */
  predicate InWindow(from: Option<Time>, to: Option<Time>, t: Time) {
    from.Some? && to.Some? ==> from.value <= t <= to.value
  }

  ghost function Sum(ids: set<Uuid>, amounts: map<Uuid, int>): int
    requires ids <= amounts.Keys
    decreases |ids|
  {
    if ids == {} then 0
    else
      var id :| id in ids;
      amounts[id] + Sum(ids - {id}, amounts)
  }

  /** The sum does not depend on the order in which elements are taken. */
  lemma {:induction false} SumRemove(ids: set<Uuid>, amounts: map<Uuid, int>, x: Uuid)
    requires ids <= amounts.Keys && x in ids
    ensures Sum(ids, amounts) == amounts[x] + Sum(ids - {x}, amounts)
    decreases |ids|
  {
    var id :| id in ids && Sum(ids, amounts) == amounts[id] + Sum(ids - {id}, amounts);
    if id != x {
      SumRemove(ids - {id}, amounts, x);
      SumRemove(ids - {x}, amounts, id);
      assert ids - {id} - {x} == ids - {x} - {id};
    }
  }

  lemma {:induction false} SumUnion(a: set<Uuid>, b: set<Uuid>, amounts: map<Uuid, int>)
    requires a <= amounts.Keys && b <= amounts.Keys && a !! b
    ensures Sum(a + b, amounts) == Sum(a, amounts) + Sum(b, amounts)
    decreases |a|
  {
    if a == {} {
      assert a + b == b;
    } else {
      var x :| x in a;
      SumRemove(a, amounts, x);
      SumRemove(a + b, amounts, x);
      assert a + b - {x} == (a - {x}) + b;
      SumUnion(a - {x}, b, amounts);
    }
  }

  lemma {:induction false} SumSame(ids: set<Uuid>, amounts: map<Uuid, int>, amounts': map<Uuid, int>)
    requires ids <= amounts.Keys && ids <= amounts'.Keys
    requires forall id | id in ids :: amounts[id] == amounts'[id]
    ensures Sum(ids, amounts) == Sum(ids, amounts')
    decreases |ids|
  {
    if ids == {} {
    } else {
      var x :| x in ids;
      SumRemove(ids, amounts, x);
      SumRemove(ids, amounts', x);
      SumSame(ids - {x}, amounts, amounts');
    }
  }

  ghost function TotalOf(ids: set<Uuid>, amounts: map<Uuid, int>): Total
    requires ids <= amounts.Keys
  {
    Total(|ids|, Sum(ids, amounts))
  }

  lemma TotalInsert(ids: set<Uuid>, amounts: map<Uuid, int>, x: Uuid)
    requires ids <= amounts.Keys && x in amounts && x !in ids
    ensures TotalOf(ids + {x}, amounts) == TotalOf(ids, amounts).Plus(Total(1, amounts[x]))
  {
    SumRemove(ids + {x}, amounts, x);
    assert ids + {x} - {x} == ids;
  }

  lemma TotalUnion(a: set<Uuid>, b: set<Uuid>, amounts: map<Uuid, int>)
    requires a <= amounts.Keys && b <= amounts.Keys && a !! b
    ensures TotalOf(a + b, amounts) == TotalOf(a, amounts).Plus(TotalOf(b, amounts))
  {
    SumUnion(a, b, amounts);
  }

  // ----- The summary -----

  predicate Counts(r: PaymentRow, p: Processor, from: Option<Time>, to: Option<Time>) {
    r.state.Completed? && r.processedBy == Some(p) && InWindow(from, to, r.requestedAt)
  }

  function CompletedIds(payments: Payments, p: Processor, from: Option<Time>, to: Option<Time>): set<Uuid> {
    set id | id in payments && Counts(payments[id], p, from, to)
  }

  function Amounts(payments: Payments): map<Uuid, int> {
    map id | id in payments :: payments[id].amount
  }

  ghost function SummaryTotal(payments: Payments, p: Processor, from: Option<Time>, to: Option<Time>): Total {
    TotalOf(CompletedIds(payments, p, from, to), Amounts(payments))
  }

  /** Everything ever completed by `p`. */
  function CompletedBy(payments: Payments, p: Processor): set<Uuid> {
    set id | id in payments && payments[id].state.Completed? && payments[id].processedBy == Some(p)
  }

  /** What was accepted from the first to the last of two moments, both included. */
  function AcceptedBetween(payments: Payments, first: Time, last: Time): set<Uuid> {
    set id | id in payments && first <= payments[id].requestedAt <= last
  }

  /** Count and cents of everything completed by `p`, and, only when both bounds are
      given, of what was accepted between them. */
  ghost predicate Audited(payments: Payments, p: Processor, from: Option<Time>, to: Option<Time>, total: Total) {
    var ids := if from.None? || to.None? then CompletedBy(payments, p)
               else CompletedBy(payments, p) * AcceptedBetween(payments, from.value, to.value);
    total.requests == |ids| && total.cents == Sum(ids, Amounts(payments))
  }

  lemma SummaryMeans(payments: Payments, p: Processor, from: Option<Time>, to: Option<Time>)
    ensures Audited(payments, p, from, to, SummaryTotal(payments, p, from, to))
    ensures forall id | id in payments :: id in Amounts(payments) && Amounts(payments)[id] == payments[id].amount
  {
    var ids := CompletedIds(payments, p, from, to);
    if from.None? || to.None? {
      assert ids == CompletedBy(payments, p);
    } else {
      assert ids == CompletedBy(payments, p) * AcceptedBetween(payments, from.value, to.value);
    }
  }

  /** A two-bounded window is the sum of two disjoint windows that cover it. */
  lemma WindowsAddUp(payments: Payments, p: Processor, from: Time, middle: Time, to: Time)
    requires from <= middle + 1 && middle <= to
    ensures SummaryTotal(payments, p, Some(from), Some(to)) ==
            SummaryTotal(payments, p, Some(from), Some(middle)).Plus(
              SummaryTotal(payments, p, Some(middle + 1), Some(to)))
  {
    var a := CompletedIds(payments, p, Some(from), Some(middle));
    var b := CompletedIds(payments, p, Some(middle + 1), Some(to));
    assert CompletedIds(payments, p, Some(from), Some(to)) == a + b;
    TotalUnion(a, b, Amounts(payments));
  }
}

/** The values shared by the whole model: processors, identifiers, payments and
    availability observations. */
module Domain {

  datatype Option<+T> = None | Some(value: T)

  /** A correlation ID. PostgreSQL orders UUIDs as 128-bit big-endian numbers, so
      the order of `nat` is the order of `ORDER BY correlation_id`. */
  type Uuid = nat

  /** A claim-owner string. Each one names exactly one worker or dispatcher. */
  type Owner = nat

  type Instance = nat

  /** A PostgreSQL timestamp in microseconds. */
  type Time = int

  const MAX_INT64: int := 0x7fff_ffff_ffff_ffff
  const MIN_INT64: int := -0x8000_0000_0000_0000

  type Int64 = x: int | MIN_INT64 <= x <= MAX_INT64

  datatype Processor = Default | Fallback

  /** One value per processor. */
  datatype Both<T> = Both(default: T, fallback: T) {
    function Of(p: Processor): T {
      if p.Default? then default else fallback
    }

    function With(p: Processor, x: T): Both<T> {
      if p.Default? then this.(default := x) else this.(fallback := x)
    }
  }

  /** How a database call ended for its caller: with its reply, or with an error after
      the statement had been applied, or without its having been applied. */
  datatype CallOutcome = Replied | LostApplied | LostUnapplied

  /** The stored data sent to the assigned processor. */
  datatype Payment = Payment(id: Uuid, amount: int, requestedAt: Time, assignment: Processor)

  datatype PaymentClaim =
    | PaymentClaimed(payment: Payment)
    | PaymentCompleted
    | PaymentUnassigned
    | PaymentNotClaimable

  /** A versioned assessment of one processor. */
  datatype Availability = Availability(
    service: Processor, available: bool, version: int, passiveFailureAt: Option<Time>)

  type Cache = map<Processor, Availability>

  datatype Total = Total(requests: int, cents: int) {
    function Plus(other: Total): Total {
      Total(requests + other.requests, cents + other.cents)
    }
  }

  predicate MapExtends<K, V(==)>(m: map<K, V>, m': map<K, V>) {
    forall k | k in m :: k in m' && m'[k] == m[k]
  }
}

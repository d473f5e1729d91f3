/** The whole protocol as one state machine: the tables, the work stream, any
    number of dispatchers and workers on any number of instances, both external
    processors, and the availability machinery. A label names the next atomic step
    together with everything the environment decides about it: whether a call that
    failed had been applied, whether a publication was stored, which message is
    delivered, what a processor answered. */
module System {
  import opened Domain
  import opened Tables
  import opened Routing
  import R = Replication

  type Seq = nat

  datatype Config = Config(outboxExpiry: int, claimExpiry: int, processorTimeout: int)

  predicate ConfigOk(cfg: Config) {
    cfg.outboxExpiry > 0 && cfg.claimExpiry > 0 && cfg.processorTimeout > 0
  }

  // ----- The work stream -----

  /** Work-queue retention: a message stays until it is acknowledged. `stored` is
      every correlation ID that was ever stored, what de-duplication may remember. */
  datatype Stream = Stream(messages: map<Seq, Uuid>, stored: set<Uuid>, last: Seq)

  function Stored(s: Stream, id: Uuid): Stream {
    Stream(s.messages[s.last + 1 := id], s.stored + {id}, s.last + 1)
  }

  // ----- External processors -----

  datatype Entry = Entry(amount: int, requestedAt: Time)

  /** What was ever submitted to a processor, and what it has recorded. */
  datatype Book = Book(sent: map<Uuid, Entry>, recorded: map<Uuid, Entry>)

  // ----- Dispatchers -----

  datatype DispatcherPc =
    | Seeking
    | Publishing(id: Uuid)
    | Marking(id: Uuid)
    | Unclaiming(id: Uuid)

  datatype Dispatcher = Dispatcher(instance: Instance, pc: DispatcherPc)

  // ----- Workers -----

  datatype Delivery = Delivery(sequence: Seq, id: Uuid)

  /** A granted claim, with the moment it was taken and the lease it was given. */
  datatype Claim = Claim(payment: Payment, takenAt: Time, expiresAt: Time)

  datatype WorkerPc =
    | Idle
    | Fetched(d: Delivery)
    | Selected(d: Delivery, selected: Option<Processor>, view: Cache)
    | Claimed(d: Delivery, claim: Claim)
    | Submitting(d: Delivery, claim: Claim, deadline: Time)
    | Failing(d: Delivery, claim: Claim)
    | Releasing(d: Delivery, claim: Claim)
    | Confirmed(d: Delivery, claim: Claim)
    | Acking(d: Delivery)
    | Naking(d: Delivery)

  datatype Worker = Worker(instance: Instance, pc: WorkerPc)

  datatype HttpOutcome = TimedOut | TransportError | Response(status: int)

  datatype ProcessResult = ProcessRetryable | ProcessConfirmed | ProcessUnavailable

  /** 200 and 422 confirm; a deadline expiry or a 5xx takes the processor out of
      routing; everything else is retried. */
  function Classify(o: HttpOutcome): ProcessResult {
    match o
    case TimedOut => ProcessUnavailable
    case TransportError => ProcessRetryable
    case Response(status) =>
      if status == 200 || status == 422 then ProcessConfirmed
      else if 500 <= status <= 599 then ProcessUnavailable
      else ProcessRetryable
  }

  // ----- History -----

  /** Why a payment was routed: the cache its instance had read. */
  datatype Route = Route(service: Processor, view: Cache)

  /** A completion the database applied; `told` when the caller learned of it. */
  datatype Completion = Completion(id: Uuid, service: Processor, amount: int, requestedAt: Time, told: bool)

  datatype State = State(
    cfg: Config,
    clock: Time,
    payments: Payments,
    outbox: Outbox,
    stream: Stream,
    books: Both<Book>,
    dispatchers: map<Owner, Dispatcher>,
    workers: map<Owner, Worker>,
    names: set<Owner>,
    replicas: R.State,
    routes: map<Uuid, Route>,
    log: seq<Completion>)

  function Init(cfg: Config, clock: Time): State {
    State(cfg, clock, map[], map[], Stream(map[], {}, 0), Both(Book(map[], map[]), Book(map[], map[])),
          map[], map[], {}, R.INITIAL, map[], [])
  }

  // ----- Labels -----

  datatype DispatcherStep =
    | ClaimRow(id: Uuid, replied: bool)
    | Publish(stored: bool, acked: bool)
    | Mark(applied: bool)
    | Unclaim(applied: bool)

  datatype WorkerStep =
    | Fetch(sequence: Seq)
    | Select
    | ClaimIt(outcome: CallOutcome)
    | Submit
    | Hear(answer: HttpOutcome)
    | ReportFailure(outcome: CallOutcome)
    | Release(applied: bool)
    | Complete(outcome: CallOutcome)
    | Ack(applied: bool)
    | Nak

  datatype Label =
    | Tick(now: Time)
    | Accept(id: Uuid, amount: int)
    | StartDispatcher(d: Owner, i: Instance)
    | StartWorker(w: Owner, i: Instance)
    | Crash(o: Owner)
    | DispatcherDoes(d: Owner, dstep: DispatcherStep)
    | WorkerDoes(w: Owner, wstep: WorkerStep)
    | Record(p: Processor, id: Uuid)
    | Replicate(l: R.Label)

  predicate LiveInstance(s: State, i: Instance) {
    i in s.replicas.nodes && s.replicas.nodes[i].phase.Live?
  }

  /** A worker's passive failure report and an instance's end are steps of the
      worker and of the system, not of the replication machinery alone. */
  predicate Enabled(s: State, l: Label) {
    match l
    case Tick(_) => true
    case Accept(_, _) => true
    case StartDispatcher(d, i) => d !in s.names && LiveInstance(s, i)
    case StartWorker(w, i) => w !in s.names && LiveInstance(s, i)
    case Crash(o) => o in s.names
    case DispatcherDoes(d, step) => d in s.dispatchers && DispatcherCan(s, s.dispatchers[d].pc, step)
    case WorkerDoes(w, step) => w in s.workers && WorkerCan(s, s.workers[w], step)
    case Record(p, id) => id in s.books.Of(p).sent
    case Replicate(r) => !r.Passive? && R.Enabled(s.replicas, r)
  }

  /** An acknowledged publication that stored nothing was recognised as a duplicate. */
  predicate DispatcherCan(s: State, pc: DispatcherPc, step: DispatcherStep) {
    match step
    case ClaimRow(id, _) => pc.Seeking? && id in s.outbox && Dispatchable(s.outbox[id], s.clock)
    case Publish(stored, acked) => pc.Publishing? && (acked && !stored ==> pc.id in s.stream.stored)
    case Mark(_) => pc.Marking?
    case Unclaim(_) => pc.Unclaiming?
  }

  /** A processor answers 200 or 422 only for a payment it has recorded. */
  predicate AnswerPossible(s: State, claim: Claim, answer: HttpOutcome) {
    Classify(answer).ProcessConfirmed? ==>
      claim.payment.id in s.books.Of(claim.payment.assignment).recorded
  }

  predicate WorkerCan(s: State, w: Worker, step: WorkerStep) {
    match step
    case Fetch(sequence) => w.pc.Idle? && sequence in s.stream.messages
    case Select => w.pc.Fetched? && w.instance in s.replicas.nodes
    case ClaimIt(_) => w.pc.Selected?
    case Submit => w.pc.Claimed?
    case Hear(answer) => w.pc.Submitting? && AnswerPossible(s, w.pc.claim, answer)
    case ReportFailure(outcome) => w.pc.Failing? && LiveInstance(s, w.instance)
    case Release(_) => w.pc.Releasing?
    case Complete(_) => w.pc.Confirmed?
    case Ack(_) => w.pc.Acking?
    case Nak => w.pc.Naking?
  }

  // ----- Steps -----

  function Do(s: State, l: Label): State
    requires Enabled(s, l)
  {
    match l
    case Tick(now) => s.(clock := now)
    case Accept(id, amount) =>
      s.(payments := AcceptedPayments(s.payments, id, amount, s.clock),
         outbox := AcceptedOutbox(s.payments, s.outbox, id, amount))
    case StartDispatcher(d, i) =>
      s.(dispatchers := s.dispatchers[d := Dispatcher(i, Seeking)], names := s.names + {d})
    case StartWorker(w, i) =>
      s.(workers := s.workers[w := Worker(i, Idle)], names := s.names + {w})
    case Crash(o) => s.(dispatchers := s.dispatchers - {o}, workers := s.workers - {o})
    case DispatcherDoes(d, step) => DispatcherDo(s, d, step)
    case WorkerDoes(w, step) => WorkerDo(s, w, step)
    case Record(p, id) => RecordDo(s, p, id)
    case Replicate(r) => Replicated(s, r)
  }

  /** A stopping instance takes its dispatchers and workers with it. */
  function Replicated(s: State, r: R.Label): State
    requires R.Enabled(s.replicas, r)
  {
    var s' := s.(replicas := R.Do(s.replicas, r, s.clock));
    if r.Stop? then
      s'.(dispatchers := map d | d in s.dispatchers && s.dispatchers[d].instance != r.i :: s.dispatchers[d],
          workers := map w | w in s.workers && s.workers[w].instance != r.i :: s.workers[w])
    else s'
  }

  /** A submission reaches the processor's books now, however long ago it was sent. */
  function RecordDo(s: State, p: Processor, id: Uuid): State
    requires id in s.books.Of(p).sent
  {
    var b := s.books.Of(p);
    if id in b.recorded then s
    else s.(books := s.books.With(p, b.(recorded := b.recorded[id := b.sent[id]])))
  }

  function DispatcherAt(s: State, d: Owner, pc: DispatcherPc): State
    requires d in s.dispatchers
  {
    s.(dispatchers := s.dispatchers[d := s.dispatchers[d].(pc := pc)])
  }

  function DispatcherDo(s: State, d: Owner, step: DispatcherStep): State
    requires d in s.dispatchers && DispatcherCan(s, s.dispatchers[d].pc, step)
  {
    var pc := s.dispatchers[d].pc;
    match step
    case ClaimRow(id, replied) =>
      DispatcherAt(s, d, if replied then Publishing(id) else Seeking)
      .(outbox := ClaimedOutbox(s.outbox, id, d, s.clock, s.cfg.outboxExpiry))
    case Publish(stored, acked) =>
      DispatcherAt(s, d, if acked then Marking(pc.id) else Unclaiming(pc.id))
      .(stream := if stored then Stored(s.stream, pc.id) else s.stream)
    case Mark(applied) =>
      DispatcherAt(s, d, Seeking)
      .(outbox := if applied then MarkedOutbox(s.outbox, pc.id, d, s.clock) else s.outbox)
    case Unclaim(applied) =>
      DispatcherAt(s, d, Seeking)
      .(outbox := if applied then ReleasedOutbox(s.outbox, pc.id, d) else s.outbox)
  }

  function WorkerAt(s: State, w: Owner, pc: WorkerPc): State
    requires w in s.workers
  {
    s.(workers := s.workers[w := s.workers[w].(pc := pc)])
  }

  function WorkerDo(s: State, w: Owner, step: WorkerStep): State
    requires w in s.workers && WorkerCan(s, s.workers[w], step)
  {
    var pc := s.workers[w].pc;
    match step
    case Fetch(sequence) => WorkerAt(s, w, Fetched(Delivery(sequence, s.stream.messages[sequence])))
    case Select =>
      var view := s.replicas.nodes[s.workers[w].instance].cache;
      WorkerAt(s, w, Selected(pc.d, SelectFrom(view), view))
    case ClaimIt(outcome) => ClaimDo(s, w, outcome)
    case Submit =>
      var p := pc.claim.payment;
      var b := s.books.Of(p.assignment);
      WorkerAt(s, w, Submitting(pc.d, pc.claim, s.clock + s.cfg.processorTimeout))
      .(books := s.books.With(p.assignment, b.(sent := b.sent[p.id := Entry(p.amount, p.requestedAt)])))
    case Hear(answer) =>
      WorkerAt(s, w, match Classify(answer)
                     case ProcessConfirmed => Confirmed(pc.d, pc.claim)
                     case ProcessUnavailable => Failing(pc.d, pc.claim)
                     case ProcessRetryable => Releasing(pc.d, pc.claim))
    case ReportFailure(outcome) =>
      var r := R.Passive(s.workers[w].instance, pc.claim.payment.assignment, outcome.Replied?);
      WorkerAt(s, w, Releasing(pc.d, pc.claim))
      .(replicas := if outcome.LostUnapplied? then s.replicas else R.Do(s.replicas, r, s.clock))
    case Release(applied) =>
      WorkerAt(s, w, Naking(pc.d))
      .(payments := if applied then ReleasedPayments(s.payments, pc.d.id, w) else s.payments)
    case Complete(outcome) => CompleteDo(s, w, outcome)
    case Ack(applied) =>
      WorkerAt(s, w, Idle)
      .(stream := if applied then s.stream.(messages := s.stream.messages - {pc.d.sequence}) else s.stream)
    case Nak => WorkerAt(s, w, Idle)
  }

  predicate FirstAssignment(payments: Payments, payments': Payments, id: Uuid) {
    && id in payments && payments[id].assignment.None?
    && id in payments' && payments'[id].assignment.Some?
  }

  function ClaimDo(s: State, w: Owner, outcome: CallOutcome): State
    requires w in s.workers && s.workers[w].pc.Selected?
  {
    var pc := s.workers[w].pc;
    var id := pc.d.id;
    var reply := ClaimReply(s.payments, id, s.clock, pc.selected);
    var payments' := ClaimedPayments(s.payments, id, w, s.clock, s.cfg.claimExpiry, pc.selected);
    if outcome.LostUnapplied? then WorkerAt(s, w, Naking(pc.d))
    else
      WorkerAt(s, w, if outcome.LostApplied? then Naking(pc.d)
                     else match reply
                       case PaymentClaimed(p) => Claimed(pc.d, Claim(p, s.clock, s.clock + s.cfg.claimExpiry))
                       case PaymentCompleted => Acking(pc.d)
                       case PaymentUnassigned => Naking(pc.d)
                       case PaymentNotClaimable => Naking(pc.d))
      .(payments := payments',
        routes := if FirstAssignment(s.payments, payments', id)
                  then s.routes[id := Route(payments'[id].assignment.value, pc.view)] else s.routes)
  }

  function CompleteDo(s: State, w: Owner, outcome: CallOutcome): State
    requires w in s.workers && s.workers[w].pc.Confirmed?
  {
    var pc := s.workers[w].pc;
    var p := pc.claim.payment;
    var applies := !outcome.LostUnapplied? && Completes(s.payments, p.id, w, p.assignment);
    WorkerAt(s, w, if applies && outcome.Replied? then Acking(pc.d) else Naking(pc.d))
    .(payments := if applies
                  then CompletedPayments(s.payments, p.id, w, s.workers[w].instance, p.assignment, s.clock)
                  else s.payments,
      log := if applies
             then s.log + [Completion(p.id, p.assignment, s.payments[p.id].amount, s.payments[p.id].requestedAt,
                                      outcome.Replied?)]
             else s.log)
  }

  // ----- Runs -----

  predicate Legal(s: State, ls: seq<Label>)
    decreases ls
  {
    ls == [] || (Enabled(s, ls[0]) && Legal(Do(s, ls[0]), ls[1..]))
  }

  function Run(s: State, ls: seq<Label>): State
    requires Legal(s, ls)
    decreases ls
  {
    if ls == [] then s else Run(Do(s, ls[0]), ls[1..])
  }

  /** A step after which no clock reading is earlier than one already taken. */
  predicate ClockForward(s: State, l: Label) {
    l.Tick? ==> l.now >= s.clock
  }

  predicate Monotone(s: State, ls: seq<Label>)
    requires Legal(s, ls)
    decreases ls
  {
    ls == [] || (ClockForward(s, ls[0]) && Monotone(Do(s, ls[0]), ls[1..]))
  }

  lemma {:induction false} RunConcat(s: State, first: seq<Label>, second: seq<Label>)
    requires Legal(s, first) && Legal(Run(s, first), second)
    ensures Legal(s, first + second) && Run(s, first + second) == Run(Run(s, first), second)
    ensures Monotone(s, first) && Monotone(Run(s, first), second) ==> Monotone(s, first + second)
    decreases first
  {
    if first == [] {
      assert first + second == second;
    } else {
      RunConcat(Do(s, first[0]), first[1..], second);
      assert (first + second)[1..] == first[1..] + second;
    }
  }

  lemma SingleStep(s: State, l: Label)
    requires Enabled(s, l)
    ensures Legal(s, [l]) && Run(s, [l]) == Do(s, l)
  {
    assert [l][1..] == [];
    assert Legal(Do(s, l), []) && Run(Do(s, l), []) == Do(s, l);
    assert Legal(s, [l]);
  }

  lemma {:induction false} RunSplit(s: State, first: seq<Label>, second: seq<Label>)
    requires Legal(s, first + second)
    ensures Legal(s, first) && Legal(Run(s, first), second) && Run(s, first + second) == Run(Run(s, first), second)
    decreases first
  {
    if first == [] {
      assert first + second == second;
    } else {
      assert (first + second)[1..] == first[1..] + second;
      RunSplit(Do(s, first[0]), first[1..], second);
    }
  }

  lemma PrefixLegal(s: State, ls: seq<Label>, k: nat)
    requires Legal(s, ls) && k <= |ls|
    ensures Legal(s, ls[..k])
  {
    assert ls == ls[..k] + ls[k..];
    RunSplit(s, ls[..k], ls[k..]);
  }

  /** The state in which the k-th step of a run is taken. */
  function StateAt(s: State, ls: seq<Label>, k: nat): State
    requires Legal(s, ls) && k <= |ls|
  {
    PrefixLegal(s, ls, k);
    Run(s, ls[..k])
  }

  lemma StepAt(s: State, ls: seq<Label>, k: nat)
    requires Legal(s, ls) && k < |ls|
    ensures Enabled(StateAt(s, ls, k), ls[k]) && StateAt(s, ls, k + 1) == Do(StateAt(s, ls, k), ls[k])
  {
    PrefixLegal(s, ls, k + 1);
    assert ls[..k + 1] == ls[..k] + [ls[k]];
    RunSplit(s, ls[..k], [ls[k]]);
    assert [ls[k]][1..] == [];
    assert Run(StateAt(s, ls, k), [ls[k]]) == Run(Do(StateAt(s, ls, k), ls[k]), []);
  }

  lemma StateAtEnd(s: State, ls: seq<Label>)
    requires Legal(s, ls)
    ensures StateAt(s, ls, |ls|) == Run(s, ls)
  {
    assert ls[..|ls|] == ls;
  }

  lemma RestOfRun(s: State, ls: seq<Label>, k: nat)
    requires Legal(s, ls) && k <= |ls|
    ensures Legal(StateAt(s, ls, k), ls[k..]) && Run(StateAt(s, ls, k), ls[k..]) == Run(s, ls)
  {
    assert ls == ls[..k] + ls[k..];
    RunSplit(s, ls[..k], ls[k..]);
  }
}

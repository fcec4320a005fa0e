/** Which withdrawals can still be paid, and how often (workers/withdrawal.rs), when the tasks interleave. */
module PayoutRuns {
  import opened Prelude
  import opened Redemption
  import opened Withdrawals
  import opened Admission
  import opened WithdrawalProtocol
  import W = WithdrawalWorker

  /** The operator takes nothing up. */
  predicate Unprompted(step: Step) { !step.OperatorRead? }

  /** There is a run from one state to the other in which the operator takes nothing up. */
  ghost predicate WorksTo(start: System, s: System) { Reaches(Apply, Unprompted, start, s) }

  lemma Here(start: System)
    ensures WorksTo(start, start)
  {
    ReachesSelf(Apply, Unprompted, start);
  }

  lemma Next(start: System, s: System, step: Step) returns (t: System)
    requires WorksTo(start, s) && Inv(s) && Unprompted(step)
    ensures t == Apply(s, step) && WorksTo(start, t) && Inv(t)
  {
    t := Apply(s, step);
    StepKeeps(s, step);
    ReachesNext(Apply, Unprompted, start, s, step);
  }

  // Payouts do not come from nothing.

  /** The payouts of a withdrawal and the ones still possible, less what its requeues allow. */
  function Credit(s: System, id: nat): int
    requires Exists(s, id)
  {
    |s.history[id].sends| + Live(s.rows[id], s.worker, id) - s.history[id].requeues
  }

  lemma CallbackCredit(s: System, call: nat, raw: u64, ratio: CapRatio, now: int, id: nat)
    requires Inv(s) && Exists(s, id)
    ensures var t := CallbackWritten(s, call, raw, ratio, now); Exists(t, id) && Credit(t, id) <= Credit(s, id)
  {
  }

  lemma FundingCredit(s: System, entry: nat, now: int, report: W.QuoteStatus, id: nat)
    requires Inv(s) && Exists(s, id)
    ensures var t := FundingWritten(s, entry, now, report); Exists(t, id) && Credit(t, id) <= Credit(s, id)
  {
  }

  lemma RedeemCredit(s: System, entry: nat, reply: Option<Redeemed>, id: nat)
    requires Inv(s) && Exists(s, id)
    ensures var t := RedeemStarted(s, entry, reply); Exists(t, id) && Credit(t, id) <= Credit(s, id)
  {
    assert Good(s.rows[id], s.history[id], s.worker, id);
  }

  lemma ConsumeCredit(s: System, id: nat)
    requires Inv(s) && Exists(s, id)
    ensures Exists(Consumption(s), id) && Credit(Consumption(s), id) <= Credit(s, id)
  {
    assert Good(s.rows[id], s.history[id], s.worker, id);
  }

  lemma SendCredit(s: System, txid: Option<string>, id: nat)
    requires Inv(s) && Exists(s, id)
    ensures Exists(Sending(s, txid), id) && Credit(Sending(s, txid), id) <= Credit(s, id)
  {
    assert Good(s.rows[id], s.history[id], s.worker, id);
  }

  lemma HandOverCredit(s: System, id: nat)
    requires Inv(s) && Exists(s, id)
    ensures Exists(HandedOver(s), id) && Credit(HandedOver(s), id) <= Credit(s, id)
  {
    assert Good(s.rows[id], s.history[id], s.worker, id);
  }

  lemma RecordCredit(s: System, id: nat)
    requires Inv(s) && Exists(s, id)
    ensures Exists(Recording(s), id) && Credit(Recording(s), id) <= Credit(s, id)
  {
    assert Good(s.rows[id], s.history[id], s.worker, id);
  }

  lemma WatchCredit(s: System, entry: nat, status: Option<TxStatus>, id: nat)
    requires Inv(s) && Exists(s, id)
    ensures var t := WatchWritten(s, entry, status); Exists(t, id) && Credit(t, id) <= Credit(s, id)
  {
  }

  lemma OperatorCredit(s: System, op: nat, id: nat)
    requires Inv(s) && Exists(s, id)
    ensures var t := OperatorWritten(s, op); Exists(t, id) && Credit(t, id) <= Credit(s, id)
  {
  }

  lemma ReadCredit(s: System, step: Step, id: nat)
    requires Inv(s) && Exists(s, id)
    requires step.Create? || step.CallbackRead? || step.FundingRead? || step.QueueRead? || step.EndTick?
             || step.WatchRead? || step.OperatorRead?
    ensures Exists(Apply(s, step), id) && Credit(Apply(s, step), id) <= Credit(s, id)
  {
    assert Good(s.rows[id], s.history[id], s.worker, id);
  }

  lemma StepCredit(s: System, step: Step, id: nat)
    requires Inv(s) && Exists(s, id)
    ensures Exists(Apply(s, step), id) && Credit(Apply(s, step), id) <= Credit(s, id)
  {
    match step
    case CallbackWrite(call, raw, ratio, now) => CallbackCredit(s, call, raw, ratio, now, id);
    case FundingWrite(entry, now, report) => FundingCredit(s, entry, now, report, id);
    case Redeem(entry, reply) => RedeemCredit(s, entry, reply, id);
    case Consume => ConsumeCredit(s, id);
    case Send(txid) => SendCredit(s, txid, id);
    case HandOver => HandOverCredit(s, id);
    case Record => RecordCredit(s, id);
    case WatchWrite(entry, status) => WatchCredit(s, entry, status, id);
    case OperatorWrite(op) => OperatorCredit(s, op, id);
    case _ => ReadCredit(s, step, id);
  }

  /** Over every run the payouts and the open one grow by no more than the requeue writes. */
  lemma {:induction false} RunCredit(s: System, steps: seq<Step>, id: nat)
    requires Inv(s) && Exists(s, id)
    ensures Exists(From(s, steps), id) && Credit(From(s, steps), id) <= Credit(s, id)
  {
    if steps != [] {
      RunCredit(s, steps[..|steps| - 1], id);
      RunKeeps(s, steps[..|steps| - 1]);
      StepCredit(From(s, steps[..|steps| - 1]), steps[|steps| - 1], id);
    }
  }

  /** A withdrawal that was taken off funding before anything arrived. */
  predicate Unfunded(w: Withdrawal) { w.state != Funding && !w.tokenConsumed && w.token.None? }

  lemma UnfundedByWorker(s: System, id: nat)
    requires Inv(s) && Exists(s, id) && Unfunded(s.rows[id])
    ensures Exists(Consumption(s), id) && Unfunded(Consumption(s).rows[id])
    ensures Exists(Recording(s), id) && Unfunded(Recording(s).rows[id])
  {
    assert Good(s.rows[id], s.history[id], s.worker, id);
  }

  lemma UnfundedByFunding(s: System, call: nat, raw: u64, ratio: CapRatio, entry: nat, now: int,
                          report: W.QuoteStatus, id: nat)
    requires Exists(s, id) && Unfunded(s.rows[id])
    ensures var t := CallbackWritten(s, call, raw, ratio, now); Exists(t, id) && Unfunded(t.rows[id])
    ensures var t := FundingWritten(s, entry, now, report); Exists(t, id) && Unfunded(t.rows[id])
  {
  }

  lemma UnfundedByOthers(s: System, entry: nat, status: Option<TxStatus>, op: nat, id: nat)
    requires Exists(s, id) && Unfunded(s.rows[id])
    ensures var t := WatchWritten(s, entry, status); Exists(t, id) && Unfunded(t.rows[id])
    ensures var t := OperatorWritten(s, op); Exists(t, id) && Unfunded(t.rows[id])
  {
  }

  lemma UnfundedStays(s: System, step: Step, id: nat)
    requires Inv(s) && Exists(s, id) && Unfunded(s.rows[id])
    ensures Exists(Apply(s, step), id) && Unfunded(Apply(s, step).rows[id])
  {
    StepKeeps(s, step);
    match step
    case CallbackWrite(call, raw, ratio, now) =>
      UnfundedByFunding(s, call, raw, ratio, 0, now, W.QuoteStatus(W.Unpaid, 0, 0), id);
    case FundingWrite(entry, now, report) => UnfundedByFunding(s, 0, 0, Ratio(1, 1), entry, now, report, id);
    case WatchWrite(entry, status) => UnfundedByOthers(s, entry, status, 0, id);
    case OperatorWrite(op) => UnfundedByOthers(s, 0, None, op, id);
    case Consume => UnfundedByWorker(s, id);
    case Record => UnfundedByWorker(s, id);
    case _ => QuietSteps(s, step, id);
  }

  /** Nothing is ever paid for it, however often it is requeued. */
  lemma {:induction false} UnfundedIsNeverPaid(s: System, steps: seq<Step>, id: nat)
    requires Inv(s) && Exists(s, id) && Unfunded(s.rows[id])
    ensures Exists(From(s, steps), id) && Unfunded(From(s, steps).rows[id]) && From(s, steps).history[id].sends == []
  {
    RunKeeps(s, steps);
    if steps != [] {
      UnfundedIsNeverPaid(s, steps[..|steps| - 1], id);
      RunKeeps(s, steps[..|steps| - 1]);
      UnfundedStays(From(s, steps[..|steps| - 1]), steps[|steps| - 1], id);
    }
    assert Good(From(s, steps).rows[id], From(s, steps).history[id], From(s, steps).worker, id);
  }

  // A run that pays.

  /** Funded: redeemed already, or with a token to redeem. */
  predicate Funded(w: Withdrawal) { w.state != Funding && (w.tokenConsumed || w.token.Some?) }

  /** A mint that takes nothing. */
  function Full(w: Withdrawal): Option<Redeemed> {
    if w.token.Some? then Some(Redeemed(w.token.value.value, Some(0))) else None
  }

  /** Payouts and requeues of the withdrawal are the same. */
  predicate SameCounts(s: System, t: System, id: nat) {
    && Exists(s, id) && Exists(t, id) && |t.rows| == |s.rows| && t.operations == s.operations
    && t.history[id].sends == s.history[id].sends && t.history[id].requeues == s.history[id].requeues
  }

  predicate About(worker: Worker, id: nat) { worker.Paying? && worker.id == id }

  lemma Store(start: System, s: System, id: nat) returns (t: System)
    requires WorksTo(start, s) && Inv(s) && Exists(s, id) && s.worker.Storing? && s.worker.id == id
    ensures WorksTo(start, t) && Inv(t) && SameCounts(s, t, id) && About(t.worker, id)
  {
    t := Next(start, s, Consume);
    assert t == Consumption(s);
  }

  lemma TakeUp(start: System, s: System, id: nat) returns (t: System)
    requires WorksTo(start, s) && Inv(s) && Exists(s, id) && Funded(s.rows[id])
    requires s.worker.Working? && id in s.worker.queue
    ensures WorksTo(start, t) && Inv(t) && SameCounts(s, t, id) && About(t.worker, id)
  {
    assert Good(s.rows[id], s.history[id], s.worker, id);
    var reply := Full(s.rows[id]);
    var a := Next(start, s, Redeem(id, reply));
    assert a == RedeemStarted(s, id, reply);
    if s.rows[id].tokenConsumed { t := a; } else { t := Store(start, a, id); }
  }

  lemma Pay(start: System, s: System, id: nat) returns (t: System)
    requires WorksTo(start, s) && Inv(s) && Exists(s, id) && About(s.worker, id)
    ensures WorksTo(start, t) && Inv(t) && Exists(t, id) && t.operations == s.operations
    ensures |t.history[id].sends| == |s.history[id].sends| + 1 && t.history[id].requeues == s.history[id].requeues
    ensures t.worker.Working? && t.rows[id].state == Settled && Funded(t.rows[id])
  {
    assert Good(s.rows[id], s.history[id], s.worker, id);
    var a := Next(start, s, Send(Some("txid")));
    assert a == Sending(s, Some("txid"));
    t := Next(start, a, Record);
    assert t == Recording(a);
  }

  predicate Elsewhere(worker: Worker, id: nat) {
    (worker.Storing? || worker.Paying? || worker.Paid? || worker.Failing?) && worker.id != id
  }

  /** What the worker has in hand is redeemed, not sent, and recorded. */
  function PutAway(s: System): System { Recording(Sending(Consumption(s), None)) }

  /** Nothing about the row has changed, and the worker is still elsewhere. */
  predicate Spared(s: System, t: System, id: nat) {
    && SameCounts(s, t, id) && t.rows[id] == s.rows[id]
    && Queue(t.worker) == Queue(s.worker) && (Elsewhere(t.worker, id) || t.worker == Working(Queue(s.worker)))
  }

  /** The worker knows its rows and what was asked for. */
  predicate Steady(s: System) {
    |s.history| == |s.rows| && Known(s.worker, |s.rows|) && (s.worker.Paying? ==> s.worker.seen.requested.Some?)
  }

  lemma ConsumeSpares(s: System, id: nat)
    requires Steady(s) && Exists(s, id) && Elsewhere(s.worker, id)
    requires s.worker.Storing? ==> s.worker.seen.requested.Some?
    ensures Spared(s, Consumption(s), id) && Steady(Consumption(s)) && !Consumption(s).worker.Storing?
  {
  }

  lemma SendSpares(s: System, id: nat)
    requires Steady(s) && Exists(s, id) && Elsewhere(s.worker, id) && !s.worker.Storing?
    ensures Spared(s, Sending(s, None), id) && Steady(Sending(s, None))
    ensures Sending(s, None).worker.Paid? || Sending(s, None).worker.Failing?
  {
  }

  lemma RecordSpares(s: System, id: nat)
    requires Steady(s) && Exists(s, id) && Elsewhere(s.worker, id)
    requires s.worker.Paid? || s.worker.Failing?
    ensures Spared(s, Recording(s), id) && Recording(s).worker == Working(Queue(s.worker))
  {
  }

  /** Unless that is this row, the row is left alone. */
  lemma PutAwaySpares(s: System, id: nat)
    requires Inv(s) && Exists(s, id) && Elsewhere(s.worker, id)
    ensures SameCounts(s, PutAway(s), id) && PutAway(s).rows[id] == s.rows[id]
    ensures PutAway(s).worker == Working(Queue(s.worker))
  {
    assert Good(s.rows[s.worker.id], s.history[s.worker.id], s.worker, s.worker.id);
    ConsumeSpares(s, id);
    SendSpares(Consumption(s), id);
    RecordSpares(Sending(Consumption(s), None), id);
  }

  /** Whatever the worker has in hand, it can be done with it. */
  lemma Dropped(start: System, s: System) returns (t: System)
    requires WorksTo(start, s) && Inv(s)
    ensures WorksTo(start, t) && Inv(t) && t == PutAway(s)
  {
    WorkSteps(s);
    var a := Next(start, s, Consume);
    WorkSteps(a);
    var b := Next(start, a, Send(None));
    WorkSteps(b);
    t := Next(start, b, Record);
  }

  lemma WorkSteps(s: System)
    ensures Apply(s, Consume) == Consumption(s) && Apply(s, Send(None)) == Sending(s, None)
    ensures Apply(s, Record) == Recording(s)
  {
  }

  lemma ToWork(start: System, s: System, id: nat) returns (t: System)
    requires WorksTo(start, s) && Inv(s) && Exists(s, id) && !At(s.worker, id)
    requires !s.worker.Idle? && !s.worker.Checking?
    ensures WorksTo(start, t) && Inv(t) && SameCounts(s, t, id) && t.rows[id] == s.rows[id]
    ensures t.worker == Working(Queue(s.worker))
  {
    if s.worker.Working? {
      t := s;
    } else {
      PutAwaySpares(s, id);
      t := Dropped(start, s);
    }
  }

  lemma ToRest(start: System, s: System, id: nat) returns (t: System)
    requires WorksTo(start, s) && Inv(s) && Exists(s, id) && !At(s.worker, id)
    ensures WorksTo(start, t) && Inv(t) && SameCounts(s, t, id) && t.rows[id] == s.rows[id] && t.worker.Idle?
  {
    var a := s;
    if !s.worker.Idle? && !s.worker.Checking? { a := ToWork(start, s, id); }
    t := Next(start, a, EndTick);
  }

  lemma PayQueued(start: System, s: System, id: nat) returns (t: System)
    requires WorksTo(start, s) && Inv(s) && Exists(s, id) && Funded(s.rows[id])
    requires s.rows[id].state == Queued && s.worker.Idle?
    ensures WorksTo(start, t) && Inv(t) && Exists(t, id) && t.operations == s.operations
    ensures |t.history[id].sends| == |s.history[id].sends| + 1 && t.history[id].requeues == s.history[id].requeues
    ensures t.worker.Working? && t.rows[id].state == Settled && Funded(t.rows[id])
  {
    var a := Next(start, s, FundingRead);
    var b := Next(start, a, QueueRead);
    assert id in b.worker.queue;
    var c := TakeUp(start, b, id);
    t := Pay(start, c, id);
  }

  // When a further payout is possible.

  /** Some continuation without a requeue of the withdrawal pays it once more. */
  ghost predicate PaysAgain(s: System, id: nat)
    requires Exists(s, id)
  {
    exists steps :: Pays(s, From(s, steps), id)
  }

  predicate Pays(s: System, t: System, id: nat)
    requires Exists(s, id)
  {
    && Exists(t, id) && t.history[id].requeues == s.history[id].requeues
    && |t.history[id].sends| > |s.history[id].sends|
  }

  lemma Witness(s: System, t: System, id: nat)
    requires Exists(s, id) && WorksTo(s, t) && Pays(s, t, id)
    ensures PaysAgain(s, id)
  {
    var steps :| Leads(Apply, Unprompted, s, t, steps);
    assert Pays(s, From(s, steps), id);
  }

  lemma QueuedPays(s: System, a: System, id: nat)
    requires Inv(s) && WorksTo(s, a) && Inv(a) && SameCounts(s, a, id) && Funded(a.rows[id])
    requires a.rows[id].state == Queued && !At(a.worker, id)
    ensures PaysAgain(s, id)
  {
    var b := ToRest(s, a, id);
    var t := PayQueued(s, b, id);
    Witness(s, t, id);
  }

  /** The worker has the row in hand. */
  lemma HandPays(s: System, id: nat)
    requires Inv(s) && Exists(s, id) && Funded(s.rows[id]) && At(s.worker, id) && !Closing(s.worker, id)
    ensures PaysAgain(s, id)
  {
    Here(s);
    assert Good(s.rows[id], s.history[id], s.worker, id);
    if s.worker.Failing? {
      var a := Next(s, s, Record);
      assert a == Recording(s);
      QueuedPays(s, a, id);
    } else {
      var a := s;
      if s.worker.Storing? { a := Store(s, s, id); }
      var t := Pay(s, a, id);
      Witness(s, t, id);
    }
  }

  lemma SnapshotPays(s: System, id: nat)
    requires Inv(s) && Exists(s, id) && Funded(s.rows[id]) && !At(s.worker, id) && id in Queue(s.worker)
    ensures PaysAgain(s, id)
  {
    Here(s);
    var a := ToWork(s, s, id);
    var b := TakeUp(s, a, id);
    var t := Pay(s, b, id);
    Witness(s, t, id);
  }

  /** An invoice is paid in time. */
  lemma InvoiceArrives(start: System, s: System, id: nat) returns (t: System)
    requires WorksTo(start, s) && Inv(s) && Exists(s, id) && s.worker.Idle?
    requires s.rows[id].state == Funding && s.rows[id].lightningQuote.Some?
    ensures WorksTo(start, t) && Inv(t) && SameCounts(s, t, id) && !At(t.worker, id)
    ensures t.rows[id].state == Queued && Funded(t.rows[id])
  {
    var a := Next(start, s, FundingRead);
    var now, report := s.rows[id].invoiceExpiresAt.GetOr(0), W.QuoteStatus(W.Paid, 0, 1);
    t := Next(start, a, FundingWrite(id, now, report));
    FundingAtOnce(s, id, now, report);
    PaidInTime(s.rows[id], s.history[id]);
  }

  /** What one funding pass does to a row that nobody else writes meanwhile. */
  lemma FundingAtOnce(s: System, id: nat, now: int, report: W.QuoteStatus)
    requires Exists(s, id) && s.worker.Idle? && s.rows[id].state == Funding
    ensures var t := Apply(Apply(s, FundingRead), FundingWrite(id, now, report));
            && |t.rows| == |s.rows| && |t.history| == |s.history| && t.worker.Checking? && t.operations == s.operations
            && (t.rows[id], t.history[id]) == FundingMove(s.rows[id], s.history[id], s.rows[id], now, report)
  {
  }

  lemma PaidInTime(w: Withdrawal, h: History)
    requires w.state == Funding && w.lightningQuote.Some?
    ensures var (next, noted) :=
              FundingMove(w, h, w, w.invoiceExpiresAt.GetOr(0), W.QuoteStatus(W.Paid, 0, 1));
            next.state == Queued && Funded(next) && noted.sends == h.sends && noted.requeues == h.requeues
  {
  }

  lemma InvoicePays(s: System, id: nat)
    requires Inv(s) && Exists(s, id) && s.rows[id].state == Funding && s.rows[id].lightningQuote.Some?
    ensures PaysAgain(s, id)
  {
    Here(s);
    assert Good(s.rows[id], s.history[id], s.worker, id);
    var a := ToRest(s, s, id);
    var b := InvoiceArrives(s, a, id);
    QueuedPays(s, b, id);
  }

  lemma {:induction false} Fresh(keys: set<nat>) returns (key: nat)
    ensures forall k :: k in keys ==> k < key
  {
    if keys == {} { return 0; }
    var k :| k in keys;
    var rest := Fresh(keys - {k});
    key := Max(rest, k + 1);
    forall j | j in keys ensures j < key {
      if j != k { assert j in keys - {k}; }
    }
  }

  /** Nothing but this withdrawal is in the way of its own payment. */
  lemma ExactTokenFits(rows: seq<Withdrawal>, id: nat, amount: u64)
    requires id < |rows| && Reserved(rows[id]) == amount > 0 && ReservedTotal(rows) + amount <= U64_MAX
    ensures Fits(rows, id, amount, U64_MAX, Ratio(1, 1))
  {
    SumAtLeast(Reserved, rows, id);
  }

  /** The reservations of the whole table, with that of a withdrawal waiting for a token counted twice, fit in 64 bits
      like all amounts of the program. */
  predicate Countable(s: System, id: nat)
    requires id < |s.rows|
  {
    var w := s.rows[id];
    w.state == Funding && w.lightningQuote.None? ==> ReservedTotal(s.rows) + w.requested.GetOr(0) <= U64_MAX
  }

  /** The requested token arrives. */
  lemma RequestPays(s: System, id: nat)
    requires Inv(s) && Exists(s, id) && Countable(s, id)
    requires s.rows[id].state == Funding && s.rows[id].lightningQuote.None?
    ensures PaysAgain(s, id)
  {
    Here(s);
    assert Good(s.rows[id], s.history[id], s.worker, id);
    var w := s.rows[id];
    var call := Fresh(s.callbacks.Keys);
    var token := Token("token", "mint", w.requested.value);
    var a := Next(s, s, CallbackRead(call, id, Some(token), w.requestId, false));
    assert a == s.(callbacks := s.callbacks[call := Callback(id, token)]);
    ExactTokenFits(s.rows, id, token.value);
    var b := Next(s, a, CallbackWrite(call, U64_MAX, Ratio(1, 1), 0));
    assert b == CallbackWritten(a, call, U64_MAX, Ratio(1, 1), 0);
    QueuedPays(s, b, id);
  }

  lemma LivePays(s: System, id: nat)
    requires Inv(s) && Exists(s, id) && Live(s.rows[id], s.worker, id) == 1
    requires !Unfunded(s.rows[id]) && Countable(s, id)
    ensures PaysAgain(s, id)
  {
    Here(s);
    if s.rows[id].state == Funding {
      if s.rows[id].lightningQuote.Some? { InvoicePays(s, id); } else { RequestPays(s, id); }
    } else if At(s.worker, id) {
      HandPays(s, id);
    } else if id in Queue(s.worker) {
      SnapshotPays(s, id);
    } else {
      QueuedPays(s, s, id);
    }
  }

  lemma DeadNeverPays(s: System, id: nat)
    requires Inv(s) && Exists(s, id)
    requires Live(s.rows[id], s.worker, id) == 0 || Unfunded(s.rows[id])
    ensures !PaysAgain(s, id)
  {
    forall steps ensures !Pays(s, From(s, steps), id) {
      if Unfunded(s.rows[id]) { UnfundedIsNeverPaid(s, steps, id); } else { RunCredit(s, steps, id); }
    }
  }

  /** A further payout without a further requeue is possible exactly when the withdrawal waits for its funding, or is
      funded and queued or still with the worker, unless the worker has just paid it or is giving it up. */
  lemma PaysAgainExactly(s: System, id: nat)
    requires Inv(s) && Exists(s, id) && Countable(s, id)
    ensures PaysAgain(s, id) <==> Live(s.rows[id], s.worker, id) == 1 && !Unfunded(s.rows[id])
  {
    if Live(s.rows[id], s.worker, id) == 1 && !Unfunded(s.rows[id]) { LivePays(s, id); } else { DeadNeverPays(s, id); }
  }

  /** Hence a requeue write makes a further payout possible exactly when something has arrived to pay from and the
      worker has not just paid the withdrawal or given it up without recording it. */
  lemma RequeuePaysExactly(s: System, op: nat, id: nat)
    requires Inv(s) && Exists(s, id) && s.rows[id].state != Funding
    requires op in s.operations && s.operations[op].id == id && s.operations[op].action.Requeue?
    ensures Exists(Apply(s, OperatorWrite(op)), id)
    ensures PaysAgain(Apply(s, OperatorWrite(op)), id) <==> !Closing(s.worker, id) && !Unfunded(s.rows[id])
  {
    var t := Apply(s, OperatorWrite(op));
    StepKeeps(s, OperatorWrite(op));
    assert t == OperatorWritten(s, op) && t.rows[id].state == Queued;
    PaysAgainExactly(t, id);
  }

  // The bound on payouts is exact: every number of requeues can be used to the full.

  const REQ := Request(1, true, Parsed(Token("token", "mint", 1)), false, false)
  const SETTINGS := Settings(true, 1, 0, Ratio(1, 1), true, true)
  const STALE := MarkFailed("stale")

  predicate AnyStep(step: Step) { true }

  ghost predicate RunsTo(start: System, s: System) { Reaches(Apply, AnyStep, start, s) }

  lemma Follow(start: System, s: System, step: Step) returns (t: System)
    requires RunsTo(start, s) && Inv(s)
    ensures t == Apply(s, step) && RunsTo(start, t) && Inv(t)
  {
    t := Apply(s, step);
    StepKeeps(s, step);
    ReachesNext(Apply, AnyStep, start, s, step);
  }

  lemma Onward(start: System, s: System, t: System)
    requires RunsTo(start, s) && WorksTo(s, t)
    ensures RunsTo(start, t)
  {
    ReachesOn(Apply, AnyStep, Unprompted, start, s, t);
  }

  /** A single funded withdrawal that is queued, with the worker at rest. */
  ghost predicate Rested(start: System, s: System, sends: nat, requeues: nat) {
    && RunsTo(start, s) && Inv(s) && Exists(s, 0) && s.worker.Idle? && s.operations == map[]
    && s.rows[0].state == Queued && Funded(s.rows[0])
    && |s.history[0].sends| == sends && s.history[0].requeues == requeues
  }

  lemma FirstRest(maxAttempts: nat) returns (s: System)
    ensures Rested(Begin(maxAttempts), s, 0, 0)
  {
    ReachesSelf(Apply, AnyStep, Begin(maxAttempts));
    s := Follow(Begin(maxAttempts), Begin(maxAttempts), Create(REQ, SETTINGS, None, ""));
    assert s.rows == [NewRow(REQ, "", None)] && s.history == [History(1, [], 0, 0, 0, 0)];
  }

  /** The worker pays while the operator holds a decision made on the row as it was queued. */
  lemma PayUnderOperator(start: System, s: System, sends: nat, requeues: nat) returns (paid: System)
    requires Rested(start, s, sends, requeues)
    ensures RunsTo(start, paid) && Inv(paid) && Exists(paid, 0) && !At(paid.worker, 0)
    ensures paid.rows[0].state == Settled && Funded(paid.rows[0])
    ensures paid.operations == map[0 := Operation(0, s.rows[0], STALE)]
    ensures |paid.history[0].sends| == sends + 1 && paid.history[0].requeues == requeues
  {
    var a := Follow(start, s, OperatorRead(0, 0, STALE));
    assert a == s.(operations := map[0 := Operation(0, s.rows[0], STALE)]);
    Here(a);
    paid := PayQueued(a, a, 0);
    Onward(start, a, paid);
  }

  lemma OperatorWrites(start: System, s: System, o: Operation) returns (t: System)
    requires RunsTo(start, s) && Inv(s) && Exists(s, 0) && s.operations == map[0 := o] && o.id == 0
    ensures RunsTo(start, t) && Inv(t) && Exists(t, 0) && t.worker == s.worker && t.operations == map[]
    ensures t.rows[0] == Written(s.rows[0], o.seen, o.action)
    ensures t.history[0].sends == s.history[0].sends
    ensures t.history[0].requeues == s.history[0].requeues + if o.action.Requeue? then 1 else 0
  {
    t := Follow(start, s, OperatorWrite(0));
    assert t == OperatorWritten(s, 0);
    assert s.operations - {0} == map[];
  }

  /** The stale write then overwrites `Settled`, which makes a requeue possible again. */
  lemma RequeueAfterStaleWrite(start: System, paid: System, seen: Withdrawal, sends: nat, requeues: nat)
    returns (s: System)
    requires RunsTo(start, paid) && Inv(paid) && Exists(paid, 0) && !At(paid.worker, 0)
    requires paid.rows[0].state == Settled && Funded(paid.rows[0])
    requires paid.operations == map[0 := Operation(0, seen, STALE)]
    requires |paid.history[0].sends| == sends && paid.history[0].requeues == requeues
    ensures Rested(start, s, sends, requeues + 1)
  {
    var a := OperatorWrites(start, paid, Operation(0, seen, STALE));
    var b := Follow(start, a, OperatorRead(0, 0, Requeue));
    assert b == a.(operations := map[0 := Operation(0, a.rows[0], Requeue)]);
    var c := OperatorWrites(start, b, Operation(0, a.rows[0], Requeue));
    Here(c);
    s := ToRest(c, c, 0);
    Onward(start, c, s);
  }

  lemma {:induction false} RestedAfter(maxAttempts: nat, requeues: nat) returns (s: System)
    ensures Rested(Begin(maxAttempts), s, requeues, requeues)
  {
    if requeues == 0 {
      s := FirstRest(maxAttempts);
    } else {
      var start := Begin(maxAttempts);
      var before := RestedAfter(maxAttempts, requeues - 1);
      var paid := PayUnderOperator(start, before, requeues - 1, requeues - 1);
      s := RequeueAfterStaleWrite(start, paid, before.rows[0], requeues, requeues - 1);
    }
  }

  /** For every number of requeue writes there is a run with that many and one payout more. */
  lemma BoundIsExact(maxAttempts: nat, requeues: nat)
    ensures exists steps :: var s := Run(maxAttempts, steps);
              Exists(s, 0) && s.history[0].requeues == requeues && |s.history[0].sends| == requeues + 1
  {
    var s := RestedAfter(maxAttempts, requeues);
    var paid := PayUnderOperator(Begin(maxAttempts), s, requeues, requeues);
    var steps :| Leads(Apply, AnyStep, Begin(maxAttempts), paid, steps);
    assert Run(maxAttempts, steps) == paid;
  }

  /** A withdrawal that was paid and settled ends up failed. */
  lemma SettledIsFailed(maxAttempts: nat)
    ensures exists steps :: var s := Run(maxAttempts, steps);
              && Exists(s, 0) && s.rows[0].state == Settled && |s.history[0].sends| == 1
              && 0 in s.operations && Apply(s, OperatorWrite(0)).rows[0].state == Failed
  {
    var s := FirstRest(maxAttempts);
    var paid := PayUnderOperator(Begin(maxAttempts), s, 0, 0);
    assert Apply(paid, OperatorWrite(0)) == OperatorWritten(paid, 0);
    var steps :| Leads(Apply, AnyStep, Begin(maxAttempts), paid, steps);
    assert Run(maxAttempts, steps) == paid;
  }
}

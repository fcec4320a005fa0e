/** On-chain solvency when nothing is atomic: admissions, worker, callbacks, watcher and operator read and write in
    separate steps, and any number of them may run in between. */
module SolvencyProtocol {
  import opened Prelude
  import opened Redemption
  import opened Withdrawals
  import opened Admission
  import P = WithdrawalProtocol
  import S = Solvency
  import W = WithdrawalWorker

  /** A request on its way: the balance it was told, and whether it has passed the capacity check. */
  datatype Asked = Asked(req: Request, settings: Settings, raw: u64, granted: bool)

  /** The tasks on the withdrawal rows, the on-chain wallet and the requests on their way. */
  datatype Shop = Shop(tasks: P.System, balance: nat, minerFees: nat, paid: nat, asked: map<nat, Asked>)

  datatype Move =
    | ReadBalance(call: nat, req: Request, settings: Settings, raw: u64)
    | ReadReserved(call: nat)
    | Insert(call: nat, quote: Option<Quote>, requestId: string)
    | Pay(reply: Option<W.Sent>)
    | Task(step: P.Step)  // any other step of the tasks
    | SendManually(amount: nat, reply: Option<W.Sent>)
    | Incoming(sats: nat)

  function BookOf(s: Shop): W.Book { W.Book(s.tasks.rows, s.balance, s.minerFees, s.paid) }

  function Spent(s: Shop, amount: nat, sent: W.Sent): Shop
    requires amount + sent.minerFee <= s.balance
  {
    s.(balance := s.balance - amount - sent.minerFee, minerFees := s.minerFees + sent.minerFee, paid := s.paid + amount)
  }

  /** The worker is about to send. */
  predicate AboutToPay(tasks: P.System) {
    tasks.worker.Paying? && P.Exists(tasks, tasks.worker.id) && tasks.worker.seen.requested.Some?
  }

  function Amount(tasks: P.System): nat
    requires AboutToPay(tasks)
  {
    Payout(tasks.worker.value, tasks.worker.seen.requested.value)
  }

  function SentOut(s: Shop, reply: Option<W.Sent>): Shop {
    if !AboutToPay(s.tasks) then s
    else if W.Sendable(s.balance, Amount(s.tasks), reply)
    then Spent(s, Amount(s.tasks), reply.value).(tasks := P.Sending(s.tasks, Some(reply.value.txid)))
    else s.(tasks := P.Sending(s.tasks, None))
  }

  function Inserted(s: Shop, call: nat, quote: Option<Quote>, requestId: string): Shop {
    if call !in s.asked || !s.asked[call].granted then s else
      var a := s.asked[call];
      s.(asked := s.asked - {call}, tasks := P.Apply(s.tasks, P.Create(a.req, a.settings, quote, requestId)))
  }

  function Apply(s: Shop, m: Move): Shop {
    match m
    case ReadBalance(call, req, settings, raw) =>
      if call !in s.asked
      then s.(asked := s.asked[call := Asked(req, settings, raw, false)]) else s
    case ReadReserved(call) =>
      if call !in s.asked then s else
        var a := s.asked[call];
        if a.req.amount <= RequestCap(s.tasks.rows, a.raw, a.settings.ratio)
        then s.(asked := s.asked[call := a.(granted := true)]) else s.(asked := s.asked - {call})
    case Insert(call, quote, requestId) => Inserted(s, call, quote, requestId)
    case Pay(reply) => SentOut(s, reply)
    case Task(step) => if step.Create? || step.Send? then s else s.(tasks := P.Apply(s.tasks, step))
    case SendManually(amount, reply) =>
      if amount > 0 && W.Sendable(s.balance, amount, reply) then Spent(s, amount, reply.value) else s
    case Incoming(sats) => s.(balance := s.balance + sats)
  }

  function Run(s: Shop, moves: seq<Move>): Shop { Fold(Apply, s, moves) }

  /** The step of the tasks that a move amounts to. */
  function StepOf(s: Shop, m: Move): Option<P.Step> {
    match m
    case Insert(call, quote, requestId) =>
      if call in s.asked && s.asked[call].granted
      then Some(P.Create(s.asked[call].req, s.asked[call].settings, quote, requestId)) else None
    case Pay(reply) =>
      if !AboutToPay(s.tasks) then None
      else Some(P.Send(if W.Sendable(s.balance, Amount(s.tasks), reply) then Some(reply.value.txid) else None))
    case Task(step) => if step.Create? || step.Send? then None else Some(step)
    case _ => None
  }

  lemma TasksMove(s: Shop, m: Move)
    ensures Apply(s, m).tasks == if StepOf(s, m).Some? then P.Apply(s.tasks, StepOf(s, m).value) else s.tasks
  {
  }

  // Undisturbed, the steps of one task are its atomic handler.

  lemma UndisturbedAdmission(s: Shop, call: nat, req: Request, settings: Settings, raw: u64, quote: Option<Quote>,
                             requestId: string)
    requires call !in s.asked
    ensures BookOf(Run(s, [ReadBalance(call, req, settings, raw), ReadReserved(call), Insert(call, quote, requestId)]))
         == S.Apply(BookOf(s), S.Ask(req, settings, raw, quote, requestId))
  {
    FoldThree(Apply, s, ReadBalance(call, req, settings, raw), ReadReserved(call), Insert(call, quote, requestId));
  }

  lemma UndisturbedOperator(s: Shop, op: nat, id: nat, action: Action)
    requires op !in s.tasks.operations && |s.tasks.history| == |s.tasks.rows|
    ensures BookOf(Run(s, [Task(P.OperatorRead(op, id, action)), Task(P.OperatorWrite(op))]))
         == S.Apply(BookOf(s), S.Operate(id, action))
  {
    FoldTwo(Apply, s, Task(P.OperatorRead(op, id, action)), Task(P.OperatorWrite(op)));
    OperatorAtOnce(s.tasks, op, id, action);
  }

  lemma OperatorAtOnce(s: P.System, op: nat, id: nat, action: Action)
    requires op !in s.operations && |s.history| == |s.rows|
    ensures P.OperatorWritten(P.Apply(s, P.OperatorRead(op, id, action)), op).rows
         == if id < |s.rows| && Operated(s.rows[id], action).Some?
            then s.rows[id := Operated(s.rows[id], action).value] else s.rows
  {
  }

  /** The worker holds the withdrawal as it stands. */
  predicate Current(tasks: P.System, id: nat, redeem: Option<Redeemed>) {
    && tasks.worker.Working? && id in tasks.worker.queue && P.Exists(tasks, id)
    && tasks.worker.queue[id] == tasks.rows[id] && P.FromRedeem(tasks.rows[id], redeem)
  }

  lemma AfterRedeeming(tasks: P.System, id: nat, redeem: Option<Redeemed>)
    requires Current(tasks, id, redeem)
    ensures var a := P.Consumption(P.RedeemStarted(tasks, id, redeem));
            var w, rest, claim := tasks.rows[id], tasks.worker.queue - {id}, W.ClaimOf(tasks.rows[id], redeem);
            && |a.history| == |tasks.history| && a.maxAttempts == tasks.maxAttempts
            && a.rows == (if claim.Some? then tasks.rows[id := claim.value.row] else tasks.rows)
            && a.worker == if claim.Some? then P.Paying(id, w, claim.value.value, rest)
                           else P.Failing(id, !W.Exhausted(w, tasks.maxAttempts), "redemption", rest)
  {
  }

  function Redeeming(s: Shop, id: nat, redeem: Option<Redeemed>): Shop {
    s.(tasks := P.Consumption(P.RedeemStarted(s.tasks, id, redeem)))
  }

  function Recorded(s: Shop): Shop { s.(tasks := P.Recording(s.tasks)) }

  function FailedRows(tasks: P.System): seq<Withdrawal>
    requires tasks.worker.Failing? && tasks.worker.id < |tasks.rows|
  {
    var id, next := tasks.worker.id, if tasks.worker.again then Queued else Failed;
    tasks.rows[id := Attempted(tasks.rows[id], next, None, None, Some(tasks.worker.reason))]
  }

  function PaidOut(s: Shop, reply: Option<W.Sent>): W.Book
    requires AboutToPay(s.tasks)
  {
    var id, amount := s.tasks.worker.id, Amount(s.tasks);
    var row := s.tasks.rows[id];
    if W.Sendable(s.balance, amount, reply)
    then W.Book(
      s.tasks.rows[id := Attempted(row, Settled, Some(s.tasks.worker.value), Some(reply.value.txid), None)],
      s.balance - amount - reply.value.minerFee, s.minerFees + reply.value.minerFee, s.paid + amount)
    else BookOf(s).(rows :=
      s.tasks.rows[id := W.Failing(row, s.tasks.worker.seen, "send", s.tasks.maxAttempts)])
  }

  lemma AfterFailing(s: Shop, reply: Option<W.Sent>)
    requires s.tasks.worker.Failing? && s.tasks.worker.id < |s.tasks.rows|
    ensures BookOf(Recorded(SentOut(s, reply))) == BookOf(s).(rows := FailedRows(s.tasks))
  {
  }

  lemma AfterPaying(s: Shop, reply: Option<W.Sent>)
    requires AboutToPay(s.tasks)
    ensures BookOf(Recorded(SentOut(s, reply))) == PaidOut(s, reply)
  {
  }

  lemma RedeemInTurn(s: Shop, id: nat, redeem: Option<Redeemed>)
    ensures Run(s, [Task(P.Redeem(id, redeem)), Task(P.Consume)]) == Redeeming(s, id, redeem)
  {
    FoldTwo(Apply, s, Task(P.Redeem(id, redeem)), Task(P.Consume));
  }

  lemma PayInTurn(s: Shop, send: Option<W.Sent>)
    ensures Run(s, [Pay(send), Task(P.Record)]) == Recorded(SentOut(s, send))
  {
    FoldTwo(Apply, s, Pay(send), Task(P.Record));
  }

  lemma UndisturbedWork(s: Shop, id: nat, replies: W.Replies)
    requires Current(s.tasks, id, replies.redeem(id))
    ensures BookOf(Run(s, [Task(P.Redeem(id, replies.redeem(id))), Task(P.Consume)]
                          + [Pay(replies.send(id)), Task(P.Record)]))
         == W.Worked(BookOf(s), id, s.tasks.rows[id], replies, s.tasks.maxAttempts)
  {
    var redeem, send := replies.redeem(id), replies.send(id);
    var a := Redeeming(s, id, redeem);
    FoldConcat(Apply, s, [Task(P.Redeem(id, redeem)), Task(P.Consume)], [Pay(send), Task(P.Record)]);
    RedeemInTurn(s, id, redeem);
    PayInTurn(a, send);
    AfterRedeeming(s.tasks, id, redeem);
    if a.tasks.worker.Failing? { AfterFailing(a, send); } else { AfterPaying(a, send); }
  }

  // What is owed.

  /** The payout has been sent and is not recorded yet. */
  predicate Sent(worker: P.Worker, id: nat) { worker.Paid? && worker.txid.Some? && worker.id == id }

  function OwedTo(tasks: P.System, id: nat): nat
    requires id < |tasks.rows|
  {
    if Sent(tasks.worker, id) then 0 else S.Owed(tasks.rows[id])
  }

  /** What the active withdrawals may still be paid; the one that was just sent is paid. */
  function OwedTotal(tasks: P.System): int {
    Sum(S.Owed, tasks.rows)
    - if tasks.worker.Paid? && tasks.worker.txid.Some? && tasks.worker.id < |tasks.rows|
      then S.Owed(tasks.rows[tasks.worker.id]) else 0
  }

  /** What is owed is covered by the funds: the balance and the miner fees already spent. */
  predicate Covered(tasks: P.System, funds: nat) { OwedTotal(tasks) <= funds }

  function Funds(s: Shop): nat { s.balance + s.minerFees }

  predicate Solvent(s: Shop) { Covered(s.tasks, Funds(s)) }

  /** A write to one row changes the total by what it changes for that row. */
  lemma OwedChanges(s: P.System, t: P.System, id: nat)
    requires id < |s.rows| && |t.rows| == |s.rows| && t.rows == s.rows[id := t.rows[id]]
    requires forall j: nat :: j != id ==> (Sent(t.worker, j) <==> Sent(s.worker, j))
    ensures OwedTotal(t) - OwedTotal(s) == OwedTo(t, id) - OwedTo(s, id)
  {
    SumUpdate(S.Owed, s.rows, id, t.rows[id]);
    if s.worker.Paid? { assert Sent(s.worker, s.worker.id) <==> s.worker.txid.Some?; }
    if t.worker.Paid? { assert Sent(t.worker, t.worker.id) <==> t.worker.txid.Some?; }
  }

  /** What a withdrawal is due is accounted for already, or fits in what nobody else is owed. */
  predicate HasRoom(tasks: P.System, funds: nat, id: nat)
    requires id < |tasks.rows|
  {
    || Sent(tasks.worker, id) || Active(tasks.rows[id])
    || OwedTotal(tasks) + S.Due(tasks.rows[id]) <= funds
  }

  /** A write that makes a row active, due as much as before, is covered exactly when it is backed. */
  lemma ActivatedKeepsExactly(s: P.System, t: P.System, funds: nat, id: nat)
    requires Covered(s, funds) && id < |s.rows| && |t.rows| == |s.rows| && t.rows == s.rows[id := t.rows[id]]
    requires forall j: nat :: Sent(t.worker, j) <==> Sent(s.worker, j)
    requires Active(t.rows[id]) && S.Due(t.rows[id]) == S.Due(s.rows[id])
    ensures Covered(t, funds) <==> HasRoom(s, funds, id)
  {
    OwedChanges(s, t, id);
  }

  /** A write after which a row is owed no more than before is always covered. */
  lemma LoweredKeeps(s: P.System, t: P.System, funds: nat, id: nat)
    requires Covered(s, funds) && id < |s.rows| && |t.rows| == |s.rows| && t.rows == s.rows[id := t.rows[id]]
    requires forall j: nat :: j != id ==> (Sent(t.worker, j) <==> Sent(s.worker, j))
    requires OwedTo(t, id) <= OwedTo(s, id)
    ensures Covered(t, funds)
  {
    OwedChanges(s, t, id);
  }

  /** A write to the state of a row by another task than the worker. */
  lemma StateWriteKeepsExactly(s: P.System, t: P.System, funds: nat, id: nat)
    requires Covered(s, funds) && id < |s.rows| && |t.rows| == |s.rows| && t.rows == s.rows[id := t.rows[id]]
    requires t.worker == s.worker && S.Due(t.rows[id]) == S.Due(s.rows[id])
    ensures Covered(t, funds) <==> (Active(t.rows[id]) ==> HasRoom(s, funds, id))
  {
    OwedChanges(s, t, id);
  }

  /** Between a send and its record apart, this is the solvency of the book. */
  lemma SolventBook(s: Shop)
    requires P.Inv(s.tasks) && !(s.tasks.worker.Paid? && s.tasks.worker.txid.Some?)
    ensures Solvent(s) <==> S.Solvent(BookOf(s))
  {
    forall id | 0 <= id < |s.tasks.rows| ensures Priced(s.tasks.rows[id]) {
      assert P.Good(s.tasks.rows[id], s.tasks.history[id], s.tasks.worker, id);
    }
  }

  // The guards of the moves.

  /** The withdrawal, if any, that a step puts or leaves in an active state other than funding: a requeue, the record of
      a failure with attempts left or of a payout elsewhere, and the watcher's decision that it confirms. */
  function Activated(s: P.System, step: P.Step): (id: Option<nat>)
    ensures id.Some? ==> id.value < |s.rows|
  {
    match step
    case OperatorWrite(op) =>
      if op in s.operations && s.operations[op].action.Requeue? && P.Exists(s, s.operations[op].id)
      then Some(s.operations[op].id) else None
    case Record =>
      if ((s.worker.Failing? && s.worker.again) || (s.worker.Paid? && s.worker.txid.None?)) && s.worker.id < |s.rows|
      then Some(s.worker.id) else None
    case WatchWrite(id, status) =>
      if id in s.watched && id < |s.rows| && Watched(s.watched[id], status) != s.watched[id]
         && Watched(s.watched[id], status).state == Confirming then Some(id) else None
    case _ => None
  }

  predicate HarmlessStep(tasks: P.System, funds: nat, step: P.Step) {
    Activated(tasks, step).Some? ==> HasRoom(tasks, funds, Activated(tasks, step).value)
  }

  /** What can be checked before a move: an insert, a payout and a payment by hand must fit in what nobody else is owed,
      unless the payout has a reservation; and so must a withdrawal that a write makes active again. */
  predicate Harmless(s: Shop, m: Move) {
    match m
    case Insert(call, quote, _) =>
      call in s.asked && s.asked[call].granted && WellFormed(s.asked[call].req, s.asked[call].settings, quote) ==>
        OwedTotal(s.tasks) + s.asked[call].req.amount <= Funds(s)
    case Pay(reply) =>
      AboutToPay(s.tasks) && W.Sendable(s.balance, Amount(s.tasks), reply) ==>
        HasRoom(s.tasks, Funds(s), s.tasks.worker.id)
    case SendManually(amount, reply) =>
      amount > 0 && W.Sendable(s.balance, amount, reply) ==> OwedTotal(s.tasks) + amount <= Funds(s)
    case Task(step) => HarmlessStep(s.tasks, Funds(s), step)
    case _ => true
  }

  lemma NewRowOwed(req: Request, settings: Settings, quote: Option<Quote>, requestId: string)
    requires WellFormed(req, settings, quote)
    ensures S.Owed(NewRow(req, requestId, quote)) == req.amount
  {
  }

  /** Inserting the row of an admitted request keeps solvency exactly when what was asked for still fits. */
  lemma InsertKeepsExactly(s: Shop, m: Move)
    requires P.Inv(s.tasks) && Solvent(s) && m.Insert?
    ensures Solvent(Apply(s, m)) <==> Harmless(s, m)
  {
    var Insert(call, quote, requestId) := m;
    if call in s.asked && s.asked[call].granted && WellFormed(s.asked[call].req, s.asked[call].settings, quote) {
      var a := s.asked[call];
      var w := NewRow(a.req, requestId, quote);
      NewRowOwed(a.req, a.settings, quote, requestId);
      SumConcat(S.Owed, s.tasks.rows, [w]);
      SumOfTwo(S.Owed, w, w);
    }
  }

  /** The worker sends what the withdrawal is due. */
  lemma AmountIsDue(tasks: P.System)
    requires P.Inv(tasks) && AboutToPay(tasks)
    ensures Amount(tasks) == S.Due(tasks.rows[tasks.worker.id])
  {
    assert P.Good(tasks.rows[tasks.worker.id], tasks.history[tasks.worker.id], tasks.worker, tasks.worker.id);
  }

  /** A payout keeps solvency exactly when its withdrawal still holds its reservation or the amount fits, however old
      the worker's read of it is. */
  lemma PayKeepsExactly(s: Shop, reply: Option<W.Sent>)
    requires P.Inv(s.tasks) && Solvent(s)
    ensures Solvent(SentOut(s, reply)) <==> Harmless(s, Pay(reply))
  {
    if AboutToPay(s.tasks) {
      AmountIsDue(s.tasks);
      OwedChanges(s.tasks, SentOut(s, reply).tasks, s.tasks.worker.id);
    }
  }

  lemma ConsumeKeeps(s: P.System, funds: nat)
    requires P.Inv(s) && Covered(s, funds)
    ensures Covered(P.Consumption(s), funds)
  {
    if s.worker.Storing? {
      var id := s.worker.id;
      assert P.Good(s.rows[id], s.history[id], s.worker, id);
      LoweredKeeps(s, P.Consumption(s), funds, id);
    }
  }

  lemma CallbackKeeps(s: P.System, funds: nat, call: nat, raw: u64, ratio: CapRatio, now: int)
    requires P.Inv(s) && Covered(s, funds)
    ensures Covered(P.CallbackWritten(s, call, raw, ratio, now), funds)
  {
    if call in s.callbacks && s.callbacks[call].id < |s.rows| {
      LoweredKeeps(s, P.CallbackWritten(s, call, raw, ratio, now), funds, s.callbacks[call].id);
    }
  }

  /** The funding pass credits at least what was asked for and never raises what is owed. */
  lemma FundingMoveLowers(row: Withdrawal, h: P.History, seen: Withdrawal, now: int, report: W.QuoteStatus)
    requires Priced(row) && seen.requested == row.requested
    ensures S.Owed(P.FundingMove(row, h, seen, now, report).0) <= S.Owed(row)
  {
  }

  lemma FundingKeeps(s: P.System, funds: nat, id: nat, now: int, report: W.QuoteStatus)
    requires P.Inv(s) && Covered(s, funds)
    ensures Covered(P.FundingWritten(s, id, now, report), funds)
  {
    if s.worker.Checking? && id in s.worker.funding && P.Exists(s, id) {
      assert P.Good(s.rows[id], s.history[id], s.worker, id);
      FundingMoveLowers(s.rows[id], s.history[id], s.worker.funding[id], now, report);
      LoweredKeeps(s, P.FundingWritten(s, id, now, report), funds, id);
    }
  }

  lemma RecordedRow(s: P.System)
    requires P.Inv(s) && (s.worker.Paid? || s.worker.Failing?)
    ensures var id, t := s.worker.id, P.Recording(s);
            && t.rows == s.rows[id := t.rows[id]] && t.worker.Working?
            && if Activated(s, P.Record).Some?
               then Active(t.rows[id]) && S.Due(t.rows[id]) == S.Due(s.rows[id]) && !Sent(s.worker, id)
               else !Active(t.rows[id])
  {
    assert P.Good(s.rows[s.worker.id], s.history[s.worker.id], s.worker, s.worker.id);
  }

  lemma RecordKeepsExactly(s: P.System, funds: nat)
    requires P.Inv(s) && Covered(s, funds)
    ensures Covered(P.Recording(s), funds) <==> HarmlessStep(s, funds, P.Record)
  {
    if s.worker.Paid? || s.worker.Failing? {
      RecordedRow(s);
      if Activated(s, P.Record).Some? {
        ActivatedKeepsExactly(s, P.Recording(s), funds, s.worker.id);
      } else {
        LoweredKeeps(s, P.Recording(s), funds, s.worker.id);
      }
    }
  }

  lemma WatchedRow(s: P.System, id: nat, status: Option<TxStatus>)
    requires id in s.watched && id < |s.rows| && Watched(s.watched[id], status) != s.watched[id]
    ensures var t, next := P.WatchWritten(s, id, status), Watched(s.watched[id], status).state;
            && t.worker == s.worker && t.rows == s.rows[id := ChainState(s.rows[id], next)]
            && S.Due(t.rows[id]) == S.Due(s.rows[id]) && (Active(t.rows[id]) <==> next == Confirming)
  {
  }

  lemma WatchKeepsExactly(s: P.System, funds: nat, id: nat, status: Option<TxStatus>)
    requires P.Inv(s) && Covered(s, funds)
    ensures Covered(P.WatchWritten(s, id, status), funds) <==> HarmlessStep(s, funds, P.WatchWrite(id, status))
  {
    if id in s.watched && id < |s.rows| && Watched(s.watched[id], status) != s.watched[id] {
      WatchedRow(s, id, status);
      StateWriteKeepsExactly(s, P.WatchWritten(s, id, status), funds, id);
    }
  }

  lemma WrittenRow(s: P.System, op: nat)
    requires op in s.operations && P.Exists(s, s.operations[op].id)
    ensures var o, t := s.operations[op], P.OperatorWritten(s, op);
            && t.worker == s.worker && t.rows == s.rows[o.id := Written(s.rows[o.id], o.seen, o.action)]
            && S.Due(t.rows[o.id]) == S.Due(s.rows[o.id]) && (Active(t.rows[o.id]) <==> o.action.Requeue?)
  {
  }

  lemma OperatorKeepsExactly(s: P.System, funds: nat, op: nat)
    requires P.Inv(s) && Covered(s, funds)
    ensures Covered(P.OperatorWritten(s, op), funds) <==> HarmlessStep(s, funds, P.OperatorWrite(op))
  {
    if op in s.operations && P.Exists(s, s.operations[op].id) {
      WrittenRow(s, op);
      StateWriteKeepsExactly(s, P.OperatorWritten(s, op), funds, s.operations[op].id);
    }
  }

  /** The other steps of the tasks write no row and record nothing. */
  lemma ReadKeeps(s: P.System, funds: nat, step: P.Step)
    requires P.Inv(s) && Covered(s, funds)
    requires step.CallbackRead? || step.FundingRead? || step.QueueRead? || step.Redeem? || step.HandOver?
             || step.EndTick? || step.WatchRead? || step.OperatorRead?
    ensures Covered(P.Apply(s, step), funds)
  {
  }

  lemma TaskKeepsExactly(s: P.System, funds: nat, step: P.Step)
    requires P.Inv(s) && Covered(s, funds) && !step.Create? && !step.Send?
    ensures Covered(P.Apply(s, step), funds) <==> HarmlessStep(s, funds, step)
  {
    match step
    case CallbackWrite(call, raw, ratio, now) => CallbackKeeps(s, funds, call, raw, ratio, now);
    case FundingWrite(id, now, report) => FundingKeeps(s, funds, id, now, report);
    case Consume => ConsumeKeeps(s, funds);
    case Record => RecordKeepsExactly(s, funds);
    case WatchWrite(id, status) => WatchKeepsExactly(s, funds, id, status);
    case OperatorWrite(op) => OperatorKeepsExactly(s, funds, op);
    case _ => ReadKeeps(s, funds, step);
  }

  /** A move keeps solvency exactly when it is harmless. */
  lemma MoveKeepsExactly(s: Shop, m: Move)
    requires P.Inv(s.tasks) && Solvent(s)
    ensures Solvent(Apply(s, m)) <==> Harmless(s, m)
  {
    match m
    case Insert(_, _, _) => InsertKeepsExactly(s, m);
    case Pay(reply) => PayKeepsExactly(s, reply);
    case Task(step) => if !step.Create? && !step.Send? { TaskKeepsExactly(s.tasks, Funds(s), step); }
    case ReadBalance(_, _, _, _) =>
    case ReadReserved(_) =>
    case SendManually(_, _) =>
    case Incoming(_) =>
  }

  ghost predicate Inv(s: Shop) { P.Inv(s.tasks) }

  lemma MoveKeeps(s: Shop, m: Move)
    requires Inv(s)
    ensures Inv(Apply(s, m))
  {
    TasksMove(s, m);
    if StepOf(s, m).Some? { P.StepKeeps(s.tasks, StepOf(s, m).value); }
  }

  predicate AlwaysSolvent(s: Shop, moves: seq<Move>) { Always(Solvent, Apply, s, moves) }

  predicate AlwaysHarmless(s: Shop, moves: seq<Move>) { EachStep(Harmless, Apply, s, moves) }

  /** In every interleaving a run is solvent throughout exactly when each of its moves is harmless in the state it is
      made. */
  lemma SolventExactly(s: Shop, moves: seq<Move>)
    requires Inv(s) && Solvent(s)
    ensures AlwaysSolvent(s, moves) <==> AlwaysHarmless(s, moves)
  {
    forall x, m | Inv(x) ensures Inv(Apply(x, m)) { MoveKeeps(x, m); }
    forall x, m | Inv(x) && Solvent(x) ensures Solvent(Apply(x, m)) <==> Harmless(x, m) { MoveKeepsExactly(x, m); }
    AlwaysExactly(Inv, Solvent, Harmless, Apply, s, moves);
  }

  // While the operator stays away only the inserts need to be checked.

  /** What the worker holds is queued, and what the watcher has read is current. */
  predicate Calm(s: P.System, id: nat) {
    && id < |s.rows|
    && (id in P.Queue(s.worker) || P.At(s.worker, id) ==> s.rows[id].state == Queued)
    && (id in s.watched ==>
          && s.rows[id].state == s.watched[id].state
          && (s.rows[id].state == Broadcasting || s.rows[id].state == Confirming))
  }

  /** All is calm, and nothing is pending from the operator. */
  ghost predicate Attended(s: P.System) {
    && s.operations == map[]
    && (forall id :: 0 <= id < |s.rows| ==> Calm(s, id))
    && (forall id: nat :: id in s.watched ==> id < |s.rows|)
  }

  lemma CalmAfterRead(s: P.System, step: P.Step, id: nat)
    requires P.Inv(s) && Calm(s, id)
    requires step.FundingRead? || step.QueueRead? || step.EndTick? || step.WatchRead? || step.CallbackRead?
    ensures Calm(P.Apply(s, step), id)
  {
  }

  lemma CalmAfterRedeem(s: P.System, entry: nat, reply: Option<Redeemed>, id: nat)
    requires P.Inv(s) && Calm(s, id)
    ensures Calm(P.RedeemStarted(s, entry, reply), id)
  {
  }

  lemma CalmAfterConsumption(s: P.System, id: nat)
    requires P.Inv(s) && Calm(s, id)
    ensures Calm(P.Consumption(s), id)
  {
  }

  lemma CalmAfterSending(s: P.System, txid: Option<string>, id: nat)
    requires P.Inv(s) && Calm(s, id)
    ensures Calm(P.Sending(s, txid), id)
  {
  }

  lemma CalmAfterHandOver(s: P.System, id: nat)
    requires P.Inv(s) && Calm(s, id)
    ensures Calm(P.HandedOver(s), id)
  {
  }

  lemma CalmAfterRecord(s: P.System, id: nat)
    requires P.Inv(s) && Calm(s, id)
    ensures Calm(P.Recording(s), id)
  {
    if P.At(s.worker, id) {
      assert P.Good(s.rows[id], s.history[id], s.worker, id);
      assert id !in P.Queue(s.worker) && id !in s.watched;
    } else {
      assert P.Recording(s).rows[id] == s.rows[id];
    }
    assert P.Queue(P.Recording(s).worker) == P.Queue(s.worker);
  }

  lemma CalmAfterCallback(s: P.System, call: nat, raw: u64, ratio: CapRatio, now: int, id: nat)
    requires P.Inv(s) && Calm(s, id)
    ensures Calm(P.CallbackWritten(s, call, raw, ratio, now), id)
  {
  }

  lemma CalmAfterFunding(s: P.System, entry: nat, now: int, report: W.QuoteStatus, id: nat)
    requires P.Inv(s) && Calm(s, id)
    ensures Calm(P.FundingWritten(s, entry, now, report), id)
  {
  }

  lemma CalmAfterWatch(s: P.System, entry: nat, status: Option<TxStatus>, id: nat)
    requires P.Inv(s) && Calm(s, id)
    ensures Calm(P.WatchWritten(s, entry, status), id)
  {
  }

  lemma CalmStays(s: P.System, step: P.Step, id: nat)
    requires P.Inv(s) && s.operations == map[] && Calm(s, id) && !step.OperatorRead?
    ensures Calm(P.Apply(s, step), id)
  {
    match step
    case Redeem(entry, reply) => CalmAfterRedeem(s, entry, reply, id);
    case Consume => CalmAfterConsumption(s, id);
    case Send(txid) => CalmAfterSending(s, txid, id);
    case HandOver => CalmAfterHandOver(s, id);
    case Record => CalmAfterRecord(s, id);
    case CallbackWrite(call, raw, ratio, now) => CalmAfterCallback(s, call, raw, ratio, now, id);
    case FundingWrite(entry, now, report) => CalmAfterFunding(s, entry, now, report, id);
    case WatchWrite(entry, status) => CalmAfterWatch(s, entry, status, id);
    case OperatorWrite(_) =>
    case Create(_, _, _, _) =>
    case _ => CalmAfterRead(s, step, id);
  }

  lemma NothingPending(s: P.System, step: P.Step)
    requires Attended(s) && !step.OperatorRead? && !step.Create?
    ensures P.Apply(s, step).operations == map[] && |P.Apply(s, step).rows| == |s.rows|
  {
  }

  lemma WatchedExist(s: P.System, step: P.Step)
    requires Attended(s) && !step.Create?
    ensures forall id: nat :: id in P.Apply(s, step).watched ==> id < |s.rows|
  {
  }

  lemma AttendedNewRow(s: P.System, step: P.Step)
    requires P.Inv(s) && Attended(s) && step.Create?
    ensures Attended(P.Apply(s, step))
  {
    forall id | 0 <= id < |s.rows| ensures Calm(P.Apply(s, step), id) { assert Calm(s, id); }
  }

  lemma StepAttended(s: P.System, step: P.Step)
    requires P.Inv(s) && Attended(s) && !step.OperatorRead?
    ensures Attended(P.Apply(s, step))
  {
    if step.Create? {
      AttendedNewRow(s, step);
    } else {
      NothingPending(s, step);
      WatchedExist(s, step);
      forall id | 0 <= id < |s.rows| ensures Calm(P.Apply(s, step), id) { CalmStays(s, step, id); }
    }
  }

  predicate ByOperator(m: Move) { m.SendManually? || (m.Task? && m.step.OperatorRead?) }

  lemma AttendedStays(s: Shop, m: Move)
    requires Inv(s) && Attended(s.tasks) && !ByOperator(m)
    ensures Attended(Apply(s, m).tasks)
  {
    TasksMove(s, m);
    if StepOf(s, m).Some? { StepAttended(s.tasks, StepOf(s, m).value); }
  }

  lemma AttendedIsHarmless(s: Shop, m: Move)
    requires Inv(s) && Attended(s.tasks) && !m.Insert? && !ByOperator(m)
    ensures Harmless(s, m)
  {
    if AboutToPay(s.tasks) { assert Calm(s.tasks, s.tasks.worker.id); }
    if m.Task? && Activated(s.tasks, m.step).Some? { assert Calm(s.tasks, Activated(s.tasks, m.step).value); }
  }

  /** The only condition that is left: what was asked for still fits when its row is inserted. */
  predicate InsertFits(s: Shop, m: Move) { m.Insert? ==> Harmless(s, m) }

  lemma {:induction false} OnlyInserts(s: Shop, moves: seq<Move>)
    requires Inv(s) && Attended(s.tasks)
    requires forall m :: m in moves ==> !ByOperator(m)
    ensures Inv(Run(s, moves)) && Attended(Run(s, moves).tasks)
    ensures EachStep(Harmless, Apply, s, moves) <==> EachStep(InsertFits, Apply, s, moves)
  {
    if moves != [] {
      var front, last := moves[..|moves| - 1], moves[|moves| - 1];
      OnlyInserts(s, front);
      assert last in moves;
      MoveKeeps(Run(s, front), last);
      AttendedStays(Run(s, front), last);
      if !last.Insert? { AttendedIsHarmless(Run(s, front), last); }
    }
  }

  /** Without operator and payments by hand a run is solvent throughout exactly when every insert fits. */
  lemma UndisturbedIsSolvent(s: Shop, moves: seq<Move>)
    requires Inv(s) && Solvent(s) && Attended(s.tasks)
    requires forall m :: m in moves ==> !ByOperator(m)
    ensures AlwaysSolvent(s, moves) <==> EachStep(InsertFits, Apply, s, moves)
  {
    SolventExactly(s, moves);
    OnlyInserts(s, moves);
  }
}

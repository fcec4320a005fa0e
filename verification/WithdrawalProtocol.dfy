/** The tasks that share the withdrawal rows, with every read and every write as a step of its own. */
module WithdrawalProtocol {
  import opened Prelude
  import opened Redemption
  import opened Withdrawals
  import opened Admission
  import W = WithdrawalWorker

  type Snapshot = map<nat, Withdrawal>

  /** The single worker. Entries leave its snapshot when it starts to work on them. */
  datatype Worker =
    | Idle
    | Checking(funding: Snapshot)
    | Working(queue: Snapshot)
    | Storing(id: nat, seen: Withdrawal, redeemed: Redeemed, queue: Snapshot)  // redeemed, not yet stored
    | Paying(id: nat, seen: Withdrawal, value: u64, queue: Snapshot)
    | Paid(id: nat, seen: Withdrawal, value: u64, txid: Option<string>, queue: Snapshot)
      // sent, or redeemed for a payout elsewhere when there is no txid; not yet recorded
    | Failing(id: nat, again: bool, reason: string, queue: Snapshot)  // back to the queue, or given up

  datatype Operation = Operation(id: nat, seen: Withdrawal, action: Action)
  datatype Callback = Callback(id: nat, token: Token)

  /** What happened to one withdrawal: the amounts sent on chain, the operator's requeue writes, the times it was
      funded, the redemptions that were accepted, and the redemptions tried after consumption was recorded. */
  datatype History = History(requested: nat, sends: seq<nat>, requeues: nat, fundings: nat, redemptions: nat,
                             lateRedeems: nat)

  datatype System = System(
    rows: seq<Withdrawal>,
    worker: Worker,
    watched: Snapshot,
    operations: map<nat, Operation>,
    callbacks: map<nat, Callback>,
    history: seq<History>,
    maxAttempts: nat)

  datatype Step =
    | Create(req: Request, settings: Settings, quote: Option<Quote>, requestId: string)
    | CallbackRead(call: nat, id: nat, payload: Option<Token>, payloadId: Option<string>, expired: bool)
    | CallbackWrite(call: nat, raw: u64, ratio: CapRatio, now: int)
    | FundingRead
    | FundingWrite(id: nat, now: int, report: W.QuoteStatus)
    | QueueRead
    | Redeem(id: nat, reply: Option<Redeemed>)
    | Consume
    | Send(txid: Option<string>)
    | HandOver
    | Record
    | EndTick
    | WatchRead
    | WatchWrite(id: nat, status: Option<TxStatus>)
    | OperatorRead(op: nat, id: nat, action: Action)
    | OperatorWrite(op: nat)

  function StateOf(w: Withdrawal): WithdrawalState { w.state }

  predicate Exists(s: System, id: nat) { id < |s.rows| && id < |s.history| }

  function Put(s: System, id: nat, w: Withdrawal): System
    requires id < |s.rows|
  {
    s.(rows := s.rows[id := w])
  }

  function Note(s: System, id: nat, h: History): System
    requires id < |s.history|
  {
    s.(history := s.history[id := h])
  }

  function CallbackWritten(s: System, call: nat, raw: u64, ratio: CapRatio, now: int): System {
    if call !in s.callbacks then s else
      var c := s.callbacks[call];
      var t := s.(callbacks := s.callbacks - {call});
      if Exists(s, c.id) && s.rows[c.id].state == Funding && Fits(s.rows, c.id, c.token.value, raw, ratio)
      then
        var h := s.history[c.id];
        Note(Put(t, c.id, TokenRecorded(s.rows[c.id], c.token, now)), c.id, h.(fundings := h.fundings + 1))
      else t
  }

  /** One row of the funding pass: the decision is made on the row as it was read, the write is guarded. */
  function FundingMove(row: Withdrawal, h: History, seen: Withdrawal, now: int, quote: W.QuoteStatus)
    : (Withdrawal, History)
  {
    var decided := W.FundingChecked(seen, now, quote);
    if row.state != Funding || decided == seen then (row, h)
    else if decided.state == Failed then (if row.lightningQuote.Some? then InvoiceExpired(row) else row, h)
    else if decided.tokenValue.None? then (row, h)
    else (LightningFunded(row, decided.tokenValue.value, now), h.(fundings := h.fundings + 1))
  }

  function FundingWritten(s: System, id: nat, now: int, quote: W.QuoteStatus): System {
    if !s.worker.Checking? || id !in s.worker.funding || !Exists(s, id) then s else
      var (row, h) := FundingMove(s.rows[id], s.history[id], s.worker.funding[id], now, quote);
      Note(Put(s.(worker := Checking(s.worker.funding - {id})), id, row), id, h)
  }

  /** The fee of a redemption is the value missing from the token, as Redemption.Redeem reports it. */
  predicate FromRedeem(seen: Withdrawal, reply: Option<Redeemed>) {
    reply.Some? && seen.token.Some? ==> reply.value.swapFee == Some(SatSub(seen.token.value.value, reply.value.amount))
  }

  /** Where the redemption of a row read as `seen` leads the worker. */
  function RedeemMove(id: nat, row: Withdrawal, h: History, seen: Withdrawal, rest: Snapshot, maxAttempts: nat,
                      reply: Option<Redeemed>): (Worker, History)
  {
    var claim := W.ClaimOf(seen, reply);
    var failing := Failing(id, !W.Exhausted(seen, maxAttempts), "redemption", rest);
    if seen.tokenConsumed then (if claim.Some? then Paying(id, seen, claim.value.value, rest) else failing, h)
    else
      var late := h.(lateRedeems := h.lateRedeems + if row.tokenConsumed then 1 else 0);
      if claim.None? then (failing, late)
      else (Storing(id, seen, reply.value, rest), late.(redemptions := h.redemptions + 1))
  }

  function RedeemStarted(s: System, id: nat, reply: Option<Redeemed>): System {
    if !s.worker.Working? || id !in s.worker.queue || !Exists(s, id) || !FromRedeem(s.worker.queue[id], reply)
    then s else
      var seen, rest := s.worker.queue[id], s.worker.queue - {id};
      var (worker, h) := RedeemMove(id, s.rows[id], s.history[id], seen, rest, s.maxAttempts, reply);
      Note(s.(worker := worker), id, h)
  }

  function Consumption(s: System): System {
    if !s.worker.Storing? || s.worker.id >= |s.rows| then s else
      var Storing(id, seen, r, rest) := s.worker;
      Put(s, id, Consumed(s.rows[id], r.amount, r.swapFee)).(worker := Paying(id, seen, r.amount, rest))
  }

  function Sending(s: System, txid: Option<string>): System {
    if !s.worker.Paying? || !Exists(s, s.worker.id) || s.worker.seen.requested.None? then s else
      var Paying(id, seen, value, rest) := s.worker;
      if txid.None? then s.(worker := Failing(id, !W.Exhausted(seen, s.maxAttempts), "send", rest))
      else
        var h := s.history[id];
        Note(s.(worker := Paid(id, seen, value, txid, rest)), id,
             h.(sends := h.sends + [Payout(value, seen.requested.value)]))
  }

  /** The executor without an on-chain wallet ends after the redemption. */
  function HandedOver(s: System): System {
    if !s.worker.Paying? || s.worker.id >= |s.rows| then s
    else s.(worker := Paid(s.worker.id, s.worker.seen, s.worker.value, None, s.worker.queue))
  }

  function Recording(s: System): System {
    match s.worker
    case Paid(id, seen, value, txid, rest) =>
      if id >= |s.rows| then s else
      var next := if txid.Some? then Settled else Broadcasting;
      Put(s, id, Attempted(s.rows[id], next, Some(value), txid, None)).(worker := Working(rest))
    case Failing(id, again, reason, rest) =>
      if id >= |s.rows| then s else
      var next := if again then Queued else Failed;
      Put(s, id, Attempted(s.rows[id], next, None, None, Some(reason))).(worker := Working(rest))
    case _ => s
  }

  /** The watcher decides on the row as it was read and writes only the state. */
  function WatchWritten(s: System, id: nat, status: Option<TxStatus>): System {
    if id !in s.watched || id >= |s.rows| then s else
      var seen := s.watched[id];
      var t := s.(watched := s.watched - {id});
      if Watched(seen, status) == seen then t else Put(t, id, ChainState(s.rows[id], Watched(seen, status).state))
  }

  function OperatorWritten(s: System, op: nat): System {
    if op !in s.operations || !Exists(s, s.operations[op].id) then s else
      var o := s.operations[op];
      var h := s.history[o.id];
      var t := Put(s.(operations := s.operations - {op}), o.id, Written(s.rows[o.id], o.seen, o.action));
      Note(t, o.id, h.(requeues := h.requeues + if o.action.Requeue? then 1 else 0))
  }

  /** One step; a step that is not enabled changes nothing. */
  function Apply(s: System, step: Step): System {
    match step
    case Create(req, settings, quote, requestId) =>
      if !WellFormed(req, settings, quote) then s else
      s.(rows := s.rows + [NewRow(req, requestId, quote)], history := s.history + [History(req.amount, [], 0, 0, 0, 0)])
    case CallbackRead(call, id, payload, payloadId, expired) =>
      if call !in s.callbacks && id < |s.rows| && PaymentMatches(s.rows[id], payload, payloadId, expired)
      then s.(callbacks := s.callbacks[call := Callback(id, payload.value)]) else s
    case CallbackWrite(call, raw, ratio, now) => CallbackWritten(s, call, raw, ratio, now)
    case FundingRead => if s.worker.Idle? then s.(worker := Checking(ReadRows(StateOf, s.rows, {Funding}))) else s
    case FundingWrite(id, now, quote) => FundingWritten(s, id, now, quote)
    case QueueRead => if s.worker.Checking? then s.(worker := Working(ReadRows(StateOf, s.rows, {Queued}))) else s
    case Redeem(id, reply) => RedeemStarted(s, id, reply)
    case Consume => Consumption(s)
    case Send(txid) => Sending(s, txid)
    case HandOver => HandedOver(s)
    case Record => Recording(s)
    case EndTick => if s.worker.Checking? || s.worker.Working? then s.(worker := Idle) else s
    case WatchRead => s.(watched := ReadRows(StateOf, s.rows, {Broadcasting, Confirming}))
    case WatchWrite(id, status) => WatchWritten(s, id, status)
    case OperatorRead(op, id, action) =>
      if op !in s.operations && id < |s.rows| && Permitted(s.rows[id], action)
      then s.(operations := s.operations[op := Operation(id, s.rows[id], action)]) else s
    case OperatorWrite(op) => OperatorWritten(s, op)
  }

  function Begin(maxAttempts: nat): System { System([], Idle, map[], map[], map[], [], maxAttempts) }

  function From(s: System, steps: seq<Step>): System { Fold(Apply, s, steps) }

  function Run(maxAttempts: nat, steps: seq<Step>): System { From(Begin(maxAttempts), steps) }

  // The invariant of one withdrawal.

  /** The worker has taken the row from its snapshot and has not sent anything for it yet, or still will. */
  predicate Held(worker: Worker, id: nat) {
    match worker
    case Working(queue) => id in queue
    case Storing(i, _, _, queue) => id == i || id in queue
    case Paying(i, _, _, queue) => id == i || id in queue
    case Paid(_, _, _, _, queue) => id in queue
    case Failing(i, again, _, queue) => (id == i && again) || id in queue
    case _ => false
  }

  /** The worker has paid or given up the row and is about to record it. */
  predicate Closing(worker: Worker, id: nat) {
    (worker.Paid? || (worker.Failing? && !worker.again)) && worker.id == id
  }

  /** 1 when the worker may still pay the row without a further requeue. */
  function Live(row: Withdrawal, worker: Worker, id: nat): nat {
    if Closing(worker, id) then 0
    else if Held(worker, id) || row.state == Funding || row.state == Queued then 1
    else 0
  }

  /** What the worker read still agrees with the row on everything that decides the payout. */
  predicate Agrees(seen: Withdrawal, row: Withdrawal) {
    && seen.requested == row.requested && seen.tokenConsumed == row.tokenConsumed
    && seen.tokenValue == row.tokenValue && seen.swapFee == row.swapFee
    && seen.token == row.token && row.state != Funding
  }

  function Queue(worker: Worker): Snapshot {
    match worker
    case Idle => map[]
    case Checking(_) => map[]
    case Working(queue) => queue
    case Storing(_, _, _, queue) => queue
    case Paying(_, _, _, queue) => queue
    case Paid(_, _, _, _, queue) => queue
    case Failing(_, _, _, queue) => queue
  }

  predicate WorkerAgrees(worker: Worker, row: Withdrawal, id: nat) {
    && (id in Queue(worker) ==> Agrees(Queue(worker)[id], row))
    && (worker.Storing? && worker.id == id ==>
          && id !in worker.queue && !row.tokenConsumed && row.state != Funding && worker.seen.requested == row.requested
          && row.token.Some? && FromRedeem(row, Some(worker.redeemed))
          && ValidRedemption(row.requested, worker.redeemed.amount, worker.redeemed.swapFee))
    && ((worker.Paying? || worker.Paid?) && worker.id == id ==>
          && id !in worker.queue && row.tokenConsumed && row.state != Funding && worker.seen.requested == row.requested
          && row.tokenValue == Some(worker.value))
    && (worker.Failing? && worker.id == id ==> id !in worker.queue && row.state != Funding)
  }

  /** The token covers the request, and a redemption for less belongs to a token worth exactly the request. */
  predicate Backed(row: Withdrawal, requested: nat) {
    && (row.token.Some? ==> requested <= row.token.value.value)
    && (row.tokenConsumed && row.tokenValue.Some? && row.tokenValue.value < requested ==>
          row.token.Some? && row.token.value.value == requested)
  }

  /** A withdrawal that waits for its funding waits for an invoice or for a token. */
  predicate Awaiting(row: Withdrawal) {
    row.state == Funding ==> row.lightningQuote.Some? || (row.requestId.Some? && row.requestFulfilledAt.None?)
  }

  predicate Good(row: Withdrawal, h: History, worker: Worker, id: nat) {
    && Awaiting(row) && Priced(row) && row.requested == Some(h.requested) && Backed(row, h.requested)
    && |h.sends| + Live(row, worker, id) <= 1 + h.requeues
    && h.fundings + (if row.state == Funding then 1 else 0) <= 1
    && (h.sends != [] ==> row.tokenConsumed)
    && (row.tokenConsumed ==>
          forall k :: 0 <= k < |h.sends| ==> h.sends[k] == Payout(row.tokenValue.value, h.requested))
    && h.redemptions <= 1 && h.lateRedeems == 0
    && (!row.tokenConsumed && !(worker.Storing? && worker.id == id) ==> h.redemptions == 0)
    && WorkerAgrees(worker, row, id)
    && (worker.Checking? && id in worker.funding ==> worker.funding[id].requested == row.requested)
  }

  predicate Known(worker: Worker, count: nat) {
    && (forall id: nat :: id in Queue(worker) ==> id < count)
    && (worker.Checking? ==> forall id: nat :: id in worker.funding ==> id < count)
    && (worker.Storing? || worker.Paying? || worker.Paid? || worker.Failing? ==> worker.id < count)
  }

  ghost predicate AllGood(rows: seq<Withdrawal>, history: seq<History>, worker: Worker)
    requires |rows| == |history|
  {
    forall id :: 0 <= id < |rows| ==> Good(rows[id], history[id], worker, id)
  }

  /** A payment on its way to the locked write covers its request. */
  ghost predicate Covering(callbacks: map<nat, Callback>, history: seq<History>) {
    forall call :: call in callbacks ==>
      callbacks[call].id < |history| && history[callbacks[call].id].requested <= callbacks[call].token.value
  }

  ghost predicate Inv(s: System) {
    |s.history| == |s.rows| && Known(s.worker, |s.rows|) && AllGood(s.rows, s.history, s.worker)
    && Covering(s.callbacks, s.history)
  }

  // Preservation: writes to a row by tasks other than the worker, then the steps of the worker.

  /** A write that leaves the money fields alone, and queues the row only when the write is a requeue. */
  lemma StateWriteKeeps(row: Withdrawal, next: Withdrawal, h: History, worker: Worker, id: nat, requeues: nat)
    requires Good(row, h, worker, id)
    requires next.requested == row.requested && next.tokenConsumed == row.tokenConsumed
    requires next.tokenValue == row.tokenValue && next.swapFee == row.swapFee && next.token == row.token
    requires next.state != Funding
    requires next.state == Queued ==> row.state == Queued || requeues == 1
    ensures Good(next, h.(requeues := h.requeues + requeues), worker, id)
  {
  }

  lemma TokenRecordedKeeps(row: Withdrawal, token: Token, now: int, h: History, worker: Worker, id: nat)
    requires Good(row, h, worker, id) && row.state == Funding && h.requested <= token.value
    ensures Good(TokenRecorded(row, token, now), h.(fundings := h.fundings + 1), worker, id)
  {
  }

  lemma LightningFundedKeeps(row: Withdrawal, amount: u64, now: int, h: History, worker: Worker, id: nat)
    requires Good(row, h, worker, id) && row.state == Funding && amount >= h.requested
    ensures Good(LightningFunded(row, amount, now), h.(fundings := h.fundings + 1), worker, id)
  {
  }

  /** Replacing one good row by another. */
  lemma OneWithdrawal(s: System, t: System, id: nat)
    requires Inv(s) && id < |s.rows| && |t.rows| == |s.rows| && t.worker == s.worker
    requires |t.history| == |t.rows|
    requires t.rows == s.rows[id := t.rows[id]] && t.history == s.history[id := t.history[id]]
    requires forall call :: call in t.callbacks ==> call in s.callbacks && t.callbacks[call] == s.callbacks[call]
    requires Good(t.rows[id], t.history[id], s.worker, id) && t.history[id].requested == s.history[id].requested
    ensures Inv(t)
  {
    forall j | 0 <= j < |t.rows| ensures Good(t.rows[j], t.history[j], t.worker, j) {
      if j != id { assert t.rows[j] == s.rows[j] && t.history[j] == s.history[j]; }
    }
  }

  lemma CreateKeeps(s: System, step: Step)
    requires Inv(s) && step.Create?
    ensures Inv(Apply(s, step))
  {
    var t := Apply(s, step);
    forall j | 0 <= j < |t.rows| ensures Good(t.rows[j], t.history[j], t.worker, j) {
      if j < |s.rows| {
        assert t.rows[j] == s.rows[j] && t.history[j] == s.history[j];
      } else {
        NewRowKeeps(step.req, step.settings, step.quote, step.requestId, s.worker, j);
      }
    }
  }

  lemma NewRowKeeps(req: Request, settings: Settings, quote: Option<Quote>, requestId: string, worker: Worker, id: nat)
    requires WellFormed(req, settings, quote) && Known(worker, id)
    ensures Good(NewRow(req, requestId, quote), History(req.amount, [], 0, 0, 0, 0), worker, id)
  {
  }

  lemma CallbackKeeps(s: System, call: nat, raw: u64, ratio: CapRatio, now: int)
    requires Inv(s)
    ensures Inv(CallbackWritten(s, call, raw, ratio, now))
  {
    var t := CallbackWritten(s, call, raw, ratio, now);
    if t.rows != s.rows {
      var c := s.callbacks[call];
      TokenRecordedKeeps(s.rows[c.id], c.token, now, s.history[c.id], s.worker, c.id);
      OneWithdrawal(s, t, c.id);
    }
  }

  lemma WatchKeeps(s: System, id: nat, status: Option<TxStatus>)
    requires Inv(s)
    ensures Inv(WatchWritten(s, id, status))
  {
    var t := WatchWritten(s, id, status);
    if id in s.watched && id < |s.rows| && Watched(s.watched[id], status) != s.watched[id] {
      StateWriteKeeps(s.rows[id], t.rows[id], s.history[id], s.worker, id, 0);
      OneWithdrawal(s, t, id);
    }
  }

  lemma WrittenKeeps(row: Withdrawal, seen: Withdrawal, a: Action, h: History, worker: Worker, id: nat)
    requires Good(row, h, worker, id)
    ensures Good(Written(row, seen, a), h.(requeues := h.requeues + if a.Requeue? then 1 else 0), worker, id)
  {
    StateWriteKeeps(row, Written(row, seen, a), h, worker, id, if a.Requeue? then 1 else 0);
  }

  lemma OperatorKeeps(s: System, op: nat)
    requires Inv(s)
    ensures Inv(OperatorWritten(s, op))
  {
    if op in s.operations && s.operations[op].id < |s.rows| {
      var o := s.operations[op];
      WrittenKeeps(s.rows[o.id], o.seen, o.action, s.history[o.id], s.worker, o.id);
      OneWithdrawal(s, OperatorWritten(s, op), o.id);
    }
  }

  /** A funding pass credits at least what was asked for. */
  lemma FundedEnough(seen: Withdrawal, now: int, report: W.QuoteStatus)
    ensures var decided := W.FundingChecked(seen, now, report);
            decided == seen || decided.state == Failed
            || (decided.tokenValue.Some? && decided.tokenValue.value >= seen.requested.GetOr(0))
  {
  }

  lemma FundingMoveKeeps(row: Withdrawal, h: History, worker: Worker, id: nat, seen: Withdrawal, now: int,
                         report: W.QuoteStatus)
    requires Good(row, h, worker, id) && seen.requested == row.requested
    ensures var (next, noted) := FundingMove(row, h, seen, now, report);
            Good(next, noted, worker, id) && noted.requested == h.requested
  {
    FundedEnough(seen, now, report);
    var (next, noted) := FundingMove(row, h, seen, now, report);
    if noted != h {
      LightningFundedKeeps(row, next.tokenValue.value, now, h, worker, id);
    } else if next != row {
      StateWriteKeeps(row, InvoiceExpired(row), h, worker, id, 0);
    }
  }

  lemma FundingKeeps(s: System, id: nat, now: int, report: W.QuoteStatus)
    requires Inv(s)
    ensures Inv(FundingWritten(s, id, now, report))
  {
    if s.worker.Checking? && id in s.worker.funding && id < |s.rows| {
      var moved := s.(worker := Checking(s.worker.funding - {id}));
      assert Good(s.rows[id], s.history[id], s.worker, id);
      CheckingShrinks(s, id);
      FundingMoveKeeps(s.rows[id], s.history[id], moved.worker, id, s.worker.funding[id], now, report);
      OneWithdrawal(moved, FundingWritten(s, id, now, report), id);
    }
  }

  lemma CheckingShrinks(s: System, id: nat)
    requires Inv(s) && s.worker.Checking?
    ensures Inv(s.(worker := Checking(s.worker.funding - {id})))
  {
    var worker := Checking(s.worker.funding - {id});
    forall j | 0 <= j < |s.rows| ensures Good(s.rows[j], s.history[j], worker, j) {
      assert Good(s.rows[j], s.history[j], s.worker, j);
    }
  }

  predicate At(worker: Worker, id: nat) {
    (worker.Storing? || worker.Paying? || worker.Paid? || worker.Failing?) && worker.id == id
  }

  /** A row the worker is not working on does not notice the worker moving on. */
  lemma Bystander(row: Withdrawal, h: History, before: Worker, after: Worker, id: nat)
    requires Good(row, h, before, id)
    requires !At(before, id) && !At(after, id) && !before.Checking? && !after.Checking?
    requires id in Queue(before) <==> id in Queue(after)
    requires id in Queue(before) ==> Queue(before)[id] == Queue(after)[id]
    ensures Good(row, h, after, id)
  {
    assert Held(before, id) == Held(after, id);
  }

  /** The worker moves on and may rewrite the row it works on. */
  lemma WorkerRow(s: System, t: System, id: nat)
    requires Inv(s) && id < |s.rows| && |t.rows| == |s.rows| && |t.history| == |t.rows|
    requires t.rows == s.rows[id := t.rows[id]] && t.history == s.history[id := t.history[id]]
    requires t.callbacks == s.callbacks && t.history[id].requested == s.history[id].requested
    requires !s.worker.Checking? && !t.worker.Checking?
    requires Queue(t.worker) == Queue(s.worker) - {id}
    requires forall j :: At(s.worker, j) || At(t.worker, j) ==> j == id
    requires Good(t.rows[id], t.history[id], t.worker, id)
    ensures Inv(t)
  {
    assert Known(t.worker, |t.rows|) by {
      forall j: nat | j in Queue(t.worker) ensures j < |t.rows| { assert j in Queue(s.worker); }
      if !t.worker.Idle? && !t.worker.Working? { assert At(t.worker, t.worker.id); }
    }
    forall j | 0 <= j < |t.rows| ensures Good(t.rows[j], t.history[j], t.worker, j) {
      if j != id {
        assert t.rows[j] == s.rows[j] && t.history[j] == s.history[j];
        Bystander(s.rows[j], s.history[j], s.worker, t.worker, j);
      }
    }
  }

  lemma ReadKeeps(s: System, step: Step)
    requires Inv(s)
    requires step.FundingRead? || step.QueueRead? || step.EndTick?
    ensures Inv(Apply(s, step))
  {
    var t := Apply(s, step);
    forall id | 0 <= id < |s.rows| ensures Good(s.rows[id], s.history[id], t.worker, id) {
      assert Good(s.rows[id], s.history[id], s.worker, id);
    }
  }

  lemma RedeemMoveKeeps(row: Withdrawal, h: History, queue: Snapshot, id: nat, maxAttempts: nat,
                        reply: Option<Redeemed>)
    requires id in queue && Good(row, h, Working(queue), id) && FromRedeem(queue[id], reply)
    ensures var (worker, noted) := RedeemMove(id, row, h, queue[id], queue - {id}, maxAttempts, reply);
            Good(row, noted, worker, id) && noted.requested == h.requested
  {
  }

  lemma RedeemKeeps(s: System, id: nat, reply: Option<Redeemed>)
    requires Inv(s)
    ensures Inv(RedeemStarted(s, id, reply))
  {
    if s.worker.Working? && id in s.worker.queue && id < |s.rows| && FromRedeem(s.worker.queue[id], reply) {
      var t := RedeemStarted(s, id, reply);
      var (worker, h) :=
        RedeemMove(id, s.rows[id], s.history[id], s.worker.queue[id], s.worker.queue - {id}, s.maxAttempts, reply);
      assert t == s.(worker := worker, history := s.history[id := h]);
      RedeemMoveKeeps(s.rows[id], s.history[id], s.worker.queue, id, s.maxAttempts, reply);
      WorkerRow(s, t, id);
    }
  }

  lemma ConsumeKeeps(s: System)
    requires Inv(s)
    ensures Inv(Consumption(s))
  {
    if s.worker.Storing? {
      assert Good(s.rows[s.worker.id], s.history[s.worker.id], s.worker, s.worker.id);
      WorkerRow(s, Consumption(s), s.worker.id);
    }
  }

  lemma SendKeeps(s: System, txid: Option<string>)
    requires Inv(s)
    ensures Inv(Sending(s, txid))
  {
    if s.worker.Paying? {
      assert Good(s.rows[s.worker.id], s.history[s.worker.id], s.worker, s.worker.id);
      WorkerRow(s, Sending(s, txid), s.worker.id);
    }
  }

  lemma HandOverKeeps(s: System)
    requires Inv(s)
    ensures Inv(HandedOver(s))
  {
    if s.worker.Paying? {
      assert Good(s.rows[s.worker.id], s.history[s.worker.id], s.worker, s.worker.id);
      WorkerRow(s, HandedOver(s), s.worker.id);
    }
  }

  lemma RecordKeeps(s: System)
    requires Inv(s)
    ensures Inv(Recording(s))
  {
    if s.worker.Paid? || s.worker.Failing? {
      assert Good(s.rows[s.worker.id], s.history[s.worker.id], s.worker, s.worker.id);
      WorkerRow(s, Recording(s), s.worker.id);
    }
  }

  lemma StepKeeps(s: System, step: Step)
    requires Inv(s)
    ensures Inv(Apply(s, step))
  {
    match step
    case FundingRead => ReadKeeps(s, step);
    case FundingWrite(id, now, report) => FundingKeeps(s, id, now, report);
    case QueueRead => ReadKeeps(s, step);
    case EndTick => ReadKeeps(s, step);
    case Redeem(id, reply) => RedeemKeeps(s, id, reply);
    case Consume => ConsumeKeeps(s);
    case Send(txid) => SendKeeps(s, txid);
    case HandOver => HandOverKeeps(s);
    case Record => RecordKeeps(s);
    case Create(_, _, _, _) => CreateKeeps(s, step);
    case CallbackWrite(call, raw, ratio, now) => CallbackKeeps(s, call, raw, ratio, now);
    case WatchWrite(id, status) => WatchKeeps(s, id, status);
    case OperatorWrite(op) => OperatorKeeps(s, op);
    case CallbackRead(_, id, _, _, _) => if id < |s.rows| { assert Good(s.rows[id], s.history[id], s.worker, id); }
    case WatchRead =>
    case OperatorRead(_, _, _) =>
  }

  lemma RunKeeps(start: System, steps: seq<Step>)
    requires Inv(start)
    ensures Inv(From(start, steps))
  {
    forall x, step | Inv(x) ensures Inv(Apply(x, step)) { StepKeeps(x, step); }
    FoldKeeps(Inv, Apply, start, steps);
  }

  // Theorems about every run.

  /** What the invariant says about the money of one withdrawal. */
  predicate Accounted(row: Withdrawal, h: History) {
    && |h.sends| <= 1 + h.requeues
    && h.fundings <= 1 && h.redemptions <= 1 && h.lateRedeems == 0
    && row.requested == Some(h.requested)
    && (row.tokenConsumed ==> row.tokenValue.Some? && ValidRedemption(row.requested, row.tokenValue.value, row.swapFee))
    && (h.sends != [] ==> row.tokenConsumed)
    && forall k :: 0 <= k < |h.sends| ==>
         && h.sends[k] == Payout(row.tokenValue.value, h.requested)
         && 0 < h.sends[k] <= h.requested && h.requested - h.sends[k] <= h.requested / 20
         && (h.sends[k] < h.requested ==> row.token.Some? && row.token.value.value == h.requested)
  }

  lemma GoodIsAccounted(row: Withdrawal, h: History, worker: Worker, id: nat)
    requires Good(row, h, worker, id)
    ensures Accounted(row, h)
  {
    if h.sends != [] { PayoutBounds(h.requested, row.tokenValue.value, row.swapFee); }
  }

  /** In every interleaving, from any state that satisfies the invariant, the payouts of one withdrawal number at most
      one more than the operator's requeue writes; each of them is the same amount, at most what was asked and within a
      twentieth of it, and less than what was asked only for a token worth exactly that. A withdrawal is funded at most
      once, at most one of its redemptions is accepted, and none is tried after consumption is recorded; the recorded
      amount and fee always pass validation again. */
  lemma BoundedPayouts(start: System, steps: seq<Step>, id: nat)
    requires Inv(start) && id < |From(start, steps).rows|
    ensures Exists(From(start, steps), id)
    ensures Accounted(From(start, steps).rows[id], From(start, steps).history[id])
  {
    RunKeeps(start, steps);
    var s := From(start, steps);
    GoodIsAccounted(s.rows[id], s.history[id], s.worker, id);
  }

  /** The empty table is such a state, and so is every table of rows whose payouts so far are in order while the worker
      rests. */
  lemma RestingStart(rows: seq<Withdrawal>, history: seq<History>, maxAttempts: nat)
    requires |rows| == |history|
    requires forall id :: 0 <= id < |rows| ==> Good(rows[id], history[id], Idle, id)
    ensures Inv(System(rows, Idle, map[], map[], map[], history, maxAttempts))
  {
  }

  /** In particular in every run of a new installation. */
  lemma BoundedFromEmpty(maxAttempts: nat, steps: seq<Step>, id: nat)
    requires id < |Run(maxAttempts, steps).rows|
    ensures Exists(Run(maxAttempts, steps), id)
    ensures Accounted(Run(maxAttempts, steps).rows[id], Run(maxAttempts, steps).history[id])
  {
    BoundedPayouts(Begin(maxAttempts), steps, id);
  }

  predicate SameValue(before: Withdrawal, after: Withdrawal) {
    before.tokenConsumed ==>
      && after.tokenConsumed && after.tokenValue == before.tokenValue
      && after.swapFee == before.swapFee && after.requested == before.requested
  }

  lemma WorkerWritesSameValue(s: System, id: nat)
    requires Inv(s) && id < |s.rows|
    ensures SameValue(s.rows[id], Consumption(s).rows[id])
    ensures SameValue(s.rows[id], Recording(s).rows[id])
  {
    assert Good(s.rows[id], s.history[id], s.worker, id);
  }

  lemma CallbackSameValue(s: System, call: nat, raw: u64, ratio: CapRatio, now: int, id: nat)
    requires Inv(s) && id < |s.rows|
    ensures SameValue(s.rows[id], CallbackWritten(s, call, raw, ratio, now).rows[id])
  {
    if call in s.callbacks && s.callbacks[call].id == id { assert Good(s.rows[id], s.history[id], s.worker, id); }
  }

  lemma FundingMoveSameValue(row: Withdrawal, h: History, seen: Withdrawal, now: int, report: W.QuoteStatus)
    requires Priced(row)
    ensures SameValue(row, FundingMove(row, h, seen, now, report).0)
  {
  }

  lemma FundingSameValue(s: System, entry: nat, now: int, report: W.QuoteStatus, id: nat)
    requires Inv(s) && id < |s.rows|
    ensures SameValue(s.rows[id], FundingWritten(s, entry, now, report).rows[id])
  {
    if s.worker.Checking? && entry in s.worker.funding && entry == id {
      assert Good(s.rows[id], s.history[id], s.worker, id);
      FundingMoveSameValue(s.rows[id], s.history[id], s.worker.funding[id], now, report);
    }
  }

  lemma WatchSameValue(s: System, entry: nat, status: Option<TxStatus>, id: nat)
    requires id < |s.rows|
    ensures SameValue(s.rows[id], WatchWritten(s, entry, status).rows[id])
  {
  }

  lemma OperatorSameValue(s: System, op: nat, id: nat)
    requires |s.history| == |s.rows| && id < |s.rows|
    ensures SameValue(s.rows[id], OperatorWritten(s, op).rows[id])
  {
    if op in s.operations && s.operations[op].id == id {
      WrittenSameValue(s.rows[id], s.operations[op].seen, s.operations[op].action);
    }
  }

  lemma WrittenSameValue(row: Withdrawal, seen: Withdrawal, action: Action)
    ensures SameValue(row, Written(row, seen, action))
  {
  }

  /** The other steps write no row that exists. */
  lemma QuietSteps(s: System, step: Step, id: nat)
    requires |s.history| == |s.rows| && id < |s.rows|
    requires !step.CallbackWrite? && !step.FundingWrite? && !step.Consume? && !step.Record?
    requires !step.WatchWrite? && !step.OperatorWrite?
    ensures |Apply(s, step).rows| >= |s.rows| && Apply(s, step).rows[id] == s.rows[id]
  {
  }

  lemma WritesSameValue(s: System, step: Step, id: nat)
    requires Inv(s) && id < |s.rows|
    requires step.CallbackWrite? || step.FundingWrite? || step.WatchWrite? || step.OperatorWrite?
    ensures id < |Apply(s, step).rows| && SameValue(s.rows[id], Apply(s, step).rows[id])
  {
    match step
    case CallbackWrite(call, raw, ratio, now) => CallbackSameValue(s, call, raw, ratio, now, id);
    case FundingWrite(entry, now, report) => FundingSameValue(s, entry, now, report, id);
    case WatchWrite(entry, status) => WatchSameValue(s, entry, status, id);
    case OperatorWrite(op) => OperatorSameValue(s, op, id);
  }

  /** One step neither forgets that a token is consumed nor changes what it was worth. */
  lemma ConsumptionIsFinal(s: System, step: Step, id: nat)
    requires Inv(s) && id < |s.rows|
    ensures id < |Apply(s, step).rows| && SameValue(s.rows[id], Apply(s, step).rows[id])
  {
    if step.CallbackWrite? || step.FundingWrite? || step.WatchWrite? || step.OperatorWrite? {
      WritesSameValue(s, step, id);
    } else if step.Consume? || step.Record? {
      WorkerWritesSameValue(s, id);
    } else {
      QuietSteps(s, step, id);
    }
  }

  lemma LastStepSameValue(start: System, front: seq<Step>, step: Step, id: nat)
    requires Inv(start) && id < |From(start, front).rows|
    ensures id < |Apply(From(start, front), step).rows|
    ensures SameValue(From(start, front).rows[id], Apply(From(start, front), step).rows[id])
  {
    RunKeeps(start, front);
    ConsumptionIsFinal(From(start, front), step, id);
  }

  /** Hence flag, stored amount and fee stay the same from the moment they are recorded to the end of any run. */
  lemma {:induction false} StoredValueIsFixed(start: System, steps: seq<Step>, id: nat)
    requires Inv(start) && id < |start.rows| && start.rows[id].tokenConsumed
    ensures id < |From(start, steps).rows| && SameValue(start.rows[id], From(start, steps).rows[id])
  {
    if steps != [] {
      StoredValueIsFixed(start, steps[..|steps| - 1], id);
      LastStepSameValue(start, steps[..|steps| - 1], steps[|steps| - 1], id);
    }
  }

  // Archived withdrawals.

  /** The writes that move an archived withdrawal: a pending operator action other than archiving, the worker's record
      of an attempt, and the watcher's decision on an older row. */
  predicate Unarchives(s: System, step: Step, id: nat) {
    match step
    case OperatorWrite(op) => op in s.operations && s.operations[op].id == id && !s.operations[op].action.Archive?
    case Record => (s.worker.Paid? || s.worker.Failing?) && s.worker.id == id
    case WatchWrite(entry, status) => entry == id && id in s.watched && Watched(s.watched[id], status) != s.watched[id]
    case _ => false
  }

  lemma RecordMoves(s: System, id: nat)
    requires id < |s.rows| && s.rows[id].state == ArchivedByOperator
    ensures Recording(s).rows[id].state != ArchivedByOperator <==> Unarchives(s, Record, id)
  {
  }

  lemma OperatorMoves(s: System, op: nat, id: nat)
    requires |s.history| == |s.rows| && id < |s.rows| && s.rows[id].state == ArchivedByOperator
    ensures OperatorWritten(s, op).rows[id].state != ArchivedByOperator <==> Unarchives(s, OperatorWrite(op), id)
  {
  }

  lemma WatcherMoves(s: System, entry: nat, status: Option<TxStatus>, id: nat)
    requires id < |s.rows| && s.rows[id].state == ArchivedByOperator
    ensures WatchWritten(s, entry, status).rows[id].state != ArchivedByOperator
        <==> Unarchives(s, WatchWrite(entry, status), id)
  {
  }

  /** The guarded writes and the consumption do not touch the state of a row that is not waiting for its funding. */
  lemma GuardedWritesSpare(s: System, call: nat, raw: u64, ratio: CapRatio, entry: nat, now: int,
                           report: W.QuoteStatus, id: nat)
    requires |s.history| == |s.rows| && id < |s.rows| && s.rows[id].state != Funding
    ensures CallbackWritten(s, call, raw, ratio, now).rows[id].state == s.rows[id].state
    ensures FundingWritten(s, entry, now, report).rows[id].state == s.rows[id].state
  {
  }

  lemma ConsumptionSpares(s: System, id: nat)
    requires |s.history| == |s.rows| && id < |s.rows|
    ensures Consumption(s).rows[id].state == s.rows[id].state
  {
  }

  /** A step moves an archived withdrawal exactly when it is one of those writes. */
  lemma ArchivedMovesExactly(s: System, step: Step, id: nat)
    requires |s.history| == |s.rows| && id < |s.rows| && s.rows[id].state == ArchivedByOperator
    ensures id < |Apply(s, step).rows|
    ensures Apply(s, step).rows[id].state != ArchivedByOperator <==> Unarchives(s, step, id)
  {
    match step
    case OperatorWrite(op) => OperatorMoves(s, op, id);
    case Record => RecordMoves(s, id);
    case WatchWrite(entry, status) => WatcherMoves(s, entry, status, id);
    case CallbackWrite(call, raw, ratio, now) =>
      GuardedWritesSpare(s, call, raw, ratio, 0, now, W.QuoteStatus(W.Unpaid, 0, 0), id);
    case FundingWrite(entry, now, report) => GuardedWritesSpare(s, 0, 0, Ratio(1, 1), entry, now, report, id);
    case Consume => ConsumptionSpares(s, id);
    case _ => QuietSteps(s, step, id);
  }

  // Settled withdrawals.

  /** The writes that move a settled withdrawal: a pending operator action other than marking it settled, the worker's
      record of a failure or of a payout elsewhere, and the watcher's decision on an older row to wait. */
  predicate Unsettles(s: System, step: Step, id: nat) {
    match step
    case OperatorWrite(op) => op in s.operations && s.operations[op].id == id && !s.operations[op].action.MarkSettled?
    case Record => (s.worker.Failing? || (s.worker.Paid? && s.worker.txid.None?)) && s.worker.id == id
    case WatchWrite(entry, status) =>
      entry == id && id in s.watched && Watched(s.watched[id], status) != s.watched[id]
      && Watched(s.watched[id], status).state != Settled
    case _ => false
  }

  lemma OperatorUnsettles(s: System, op: nat, id: nat)
    requires |s.history| == |s.rows| && id < |s.rows| && s.rows[id].state == Settled
    ensures OperatorWritten(s, op).rows[id].state != Settled <==> Unsettles(s, OperatorWrite(op), id)
  {
  }

  lemma WatcherUnsettles(s: System, entry: nat, status: Option<TxStatus>, id: nat)
    requires id < |s.rows| && s.rows[id].state == Settled
    ensures WatchWritten(s, entry, status).rows[id].state != Settled <==> Unsettles(s, WatchWrite(entry, status), id)
  {
  }

  /** A step moves a settled withdrawal exactly when it is one of those writes. */
  lemma SettledMovesExactly(s: System, step: Step, id: nat)
    requires |s.history| == |s.rows| && id < |s.rows| && s.rows[id].state == Settled
    ensures id < |Apply(s, step).rows|
    ensures Apply(s, step).rows[id].state != Settled <==> Unsettles(s, step, id)
  {
    match step
    case OperatorWrite(op) => OperatorUnsettles(s, op, id);
    case WatchWrite(entry, status) => WatcherUnsettles(s, entry, status, id);
    case Record =>
    case CallbackWrite(call, raw, ratio, now) =>
      GuardedWritesSpare(s, call, raw, ratio, 0, now, W.QuoteStatus(W.Unpaid, 0, 0), id);
    case FundingWrite(entry, now, report) => GuardedWritesSpare(s, 0, 0, Ratio(1, 1), entry, now, report, id);
    case Consume => ConsumptionSpares(s, id);
    case _ => QuietSteps(s, step, id);
  }
}

/** On-chain solvency when every handler runs as one step: what the active withdrawals are still owed against the
    balance plus the miner fees already spent. */
module Solvency {
  import opened Prelude
  import opened Redemption
  import opened Withdrawals
  import opened Admission
  import opened WithdrawalWorker

  /** What a withdrawal is paid when it is worked on. */
  function Due(w: Withdrawal): nat { Payout(Coalesce(w.tokenValue, w.requested).GetOr(0), w.requested.GetOr(0)) }

  /** What an active withdrawal may still be paid. */
  function Owed(w: Withdrawal): nat { if Active(w) then Due(w) else 0 }

  function OwedTotal(b: Book): nat { Sum(Owed, b.rows) }

  ghost predicate Solvent(b: Book) {
    && (forall i :: 0 <= i < |b.rows| ==> Priced(b.rows[i]))
    && OwedTotal(b) <= b.balance + b.minerFees
  }

  datatype Step =
    | Ask(req: Request, settings: Settings, raw: u64, quote: Option<Quote>, requestId: string)
    | PayRequest(id: nat, payload: Option<Token>, payloadId: Option<string>, expired: bool, raw: u64, ratio: CapRatio,
                 now: int)
    | Tick(now: int, status: nat -> QuoteStatus, replies: Replies, maxAttempts: nat)
    | Watch(seen: string -> Option<TxStatus>)
    | Operate(id: nat, action: Action)
    | SendManually(amount: nat, reply: Option<Sent>)
    | Incoming(sats: nat)

  function WatchedAll(rows: seq<Withdrawal>, seen: string -> Option<TxStatus>): (r: seq<Withdrawal>)
    ensures |r| == |rows|
    ensures forall i :: 0 <= i < |rows| ==>
              r[i] == Watched(rows[i], if rows[i].txid.Some? then seen(rows[i].txid.value) else None)
  {
    seq(|rows|, i requires 0 <= i < |rows| =>
      Watched(rows[i], if rows[i].txid.Some? then seen(rows[i].txid.value) else None))
  }

  /** The admission is granted with the balance `raw` that the wallet reported; that is the balance of the last sync,
      which may be more or less than the real one. */
  predicate Admits(b: Book, s: Step)
    requires s.Ask?
  {
    WellFormed(s.req, s.settings, s.quote) && s.req.amount <= RequestCap(b.rows, s.raw, s.settings.ratio)
  }

  /** One handler; a handler that refuses changes nothing. */
  function Apply(b: Book, s: Step): Book {
    match s
    case Ask(req, _, _, quote, requestId) =>
      if Admits(b, s) then b.(rows := b.rows + [NewRow(req, requestId, quote)]) else b
    case PayRequest(id, payload, payloadId, expired, raw, ratio, now) =>
      if id < |b.rows| && PaymentMatches(b.rows[id], payload, payloadId, expired)
         && Fits(b.rows, id, payload.value.value, raw, ratio)
      then b.(rows := b.rows[id := TokenRecorded(b.rows[id], payload.value, now)]) else b
    case Tick(now, status, replies, maxAttempts) => Ticked(b, now, status, replies, maxAttempts)
    case Watch(seen) => b.(rows := WatchedAll(b.rows, seen))
    case Operate(id, action) =>
      if id < |b.rows| && Operated(b.rows[id], action).Some?
      then b.(rows := b.rows[id := Operated(b.rows[id], action).value]) else b
    case SendManually(amount, reply) =>
      if amount > 0 && Sendable(b.balance, amount, reply)
      then Book(b.rows, b.balance - amount - reply.value.minerFee, b.minerFees + reply.value.minerFee, b.paid + amount)
      else b
    case Incoming(sats) => b.(balance := b.balance + sats)
  }

  /** The machine is what the handlers do: each step is one of the methods that change the table and the wallet. */
  method Handle(worker: Worker, s: Step)
    requires s.Tick? ==> s.maxAttempts == worker.maxAttempts
    modifies worker.table, worker.wallet
    ensures worker.Contents() == Apply(old(worker.Contents()), s)
  {
    match s {
      case Ask(req, settings, raw, quote, requestId) =>
        var _ := RequestWithdrawal(worker.table, req, settings, Some(raw), quote, requestId);
      case PayRequest(id, payload, payloadId, expired, raw, ratio, now) =>
        var _ := SubmitPaymentRequest(worker.table, id, payload, payloadId, expired, raw, ratio, now);
      case Tick(now, status, replies, _) => worker.Tick(now, status, replies);
      case Watch(seen) =>
        ghost var before := worker.table.rows;
        ProcessSettlements(worker.table, seen);
        assert worker.table.rows == WatchedAll(before, seen);
      case Operate(id, action) => var _ := OperateWithdrawal(worker.table, id, action);
      case SendManually(amount, reply) => if amount > 0 { var _ := worker.wallet.SendToAddress(amount, reply); }
      case Incoming(sats) => worker.wallet.Receive(sats);
    }
  }

  function Run(b: Book, steps: seq<Step>): Book { Fold(Apply, b, steps) }

  function Received(steps: seq<Step>): nat { Sum((s: Step) => if s.Incoming? then s.sats else 0, steps) }

  // One row at a time.

  lemma RowReplaced(b: Book, id: nat, w: Withdrawal)
    requires id < |b.rows| && Solvent(b) && Priced(w) && Owed(w) <= Owed(b.rows[id])
    ensures Solvent(b.(rows := b.rows[id := w]))
  {
    SumUpdate(Owed, b.rows, id, w);
  }

  lemma OwedWithinReserved(rows: seq<Withdrawal>)
    ensures Sum(Owed, rows) <= Sum(Reserved, rows)
  {
    SumMonotone(Owed, Reserved, rows);
  }

  /** What is granted fits in what nobody is owed. */
  predicate AdmissionFits(b: Book, s: Step)
    requires s.Ask?
  {
    Admits(b, s) ==> OwedTotal(b) + s.req.amount <= b.balance + b.minerFees
  }

  lemma RequestKeepsExactly(b: Book, s: Step)
    requires Solvent(b) && s.Ask?
    ensures Solvent(Apply(b, s)) <==> AdmissionFits(b, s)
  {
    if Admits(b, s) {
      var w := NewRow(s.req, s.requestId, s.quote);
      SumConcat(Owed, b.rows, [w]);
      SumOfTwo(Owed, w, w);
      assert Owed(w) == s.req.amount && Priced(w);
    }
  }

  /** It does whenever the wallet reports no more than it has: the cap bounds a request by what is not reserved. */
  lemma RequestKeeps(b: Book, s: Step)
    requires Solvent(b) && s.Ask? && s.raw <= b.balance
    ensures AdmissionFits(b, s) && Solvent(Apply(b, s))
  {
    CapAtMostAvailable(SatSub(s.raw, ReservedTotal(b.rows)), s.settings.ratio);
    OwedWithinReserved(b.rows);
    RequestKeepsExactly(b, s);
  }

  lemma FundingCheckedKeeps(w: Withdrawal, now: int, quote: QuoteStatus)
    requires Priced(w)
    ensures Priced(FundingChecked(w, now, quote)) && Owed(FundingChecked(w, now, quote)) <= Owed(w)
  {
  }

  /** Working on a queued row: a payout lowers the debt at least as much as the balance, fees aside. */
  lemma WorkedKeeps(b: Book, id: nat, replies: Replies, maxAttempts: nat)
    requires Solvent(b) && id < |b.rows| && b.rows[id].state == Queued
    ensures Solvent(Worked(b, id, b.rows[id], replies, maxAttempts))
  {
    var w := b.rows[id];
    var after := Worked(b, id, w, replies, maxAttempts);
    SumUpdate(Owed, b.rows, id, after.rows[id]);
    assert after.rows == b.rows[id := after.rows[id]];
  }

  lemma {:induction false} WorkedAllFrame(b: Book, snapshot: seq<Withdrawal>, ids: seq<nat>, replies: Replies,
                                          maxAttempts: nat, j: nat)
    requires |snapshot| == |b.rows| && forall k :: 0 <= k < |ids| ==> ids[k] < |b.rows|
    requires j < |b.rows| && j !in ids
    ensures WorkedAll(b, snapshot, ids, replies, maxAttempts).rows[j] == b.rows[j]
  {
    if ids != [] { WorkedAllFrame(b, snapshot, ids[..|ids| - 1], replies, maxAttempts, j); }
  }

  lemma {:induction false} InStateAscends(rows: seq<Withdrawal>, state: WithdrawalState)
    ensures forall i, j :: 0 <= i < j < |InState(rows, state)| ==> InState(rows, state)[i] < InState(rows, state)[j]
  {
    if rows != [] { InStateAscends(rows[..|rows| - 1], state); }
  }

  lemma {:induction false} WorkedAllKeeps(b: Book, ids: seq<nat>, replies: Replies, maxAttempts: nat)
    requires Solvent(b)
    requires forall k :: 0 <= k < |ids| ==> ids[k] < |b.rows| && b.rows[ids[k]].state == Queued
    requires forall i, j :: 0 <= i < j < |ids| ==> ids[i] < ids[j]
    ensures Solvent(WorkedAll(b, b.rows, ids, replies, maxAttempts))
  {
    if ids != [] {
      var id, before := ids[|ids| - 1], ids[..|ids| - 1];
      WorkedAllKeeps(b, before, replies, maxAttempts);
      WorkedAllFrame(b, b.rows, before, replies, maxAttempts, id);
      WorkedKeeps(WorkedAll(b, b.rows, before, replies, maxAttempts), id, replies, maxAttempts);
    }
  }

  lemma TickKeeps(b: Book, s: Step)
    requires Solvent(b) && s.Tick?
    ensures Solvent(Apply(b, s))
  {
    var rows := FundingPass(b.rows, s.now, s.status);
    forall i | 0 <= i < |rows|
      ensures Priced(rows[i]) && Owed(rows[i]) <= Owed(b.rows[i])
    {
      FundingCheckedKeeps(b.rows[i], s.now, s.status(i));
    }
    SumPointwise(Owed, rows, b.rows);
    InStateAscends(rows, Queued);
    WorkedAllKeeps(b.(rows := rows), InState(rows, Queued), s.replies, s.maxAttempts);
  }

  lemma PaymentKeeps(b: Book, s: Step)
    requires Solvent(b) && s.PayRequest?
    ensures Solvent(Apply(b, s))
  {
    var PayRequest(id, payload, payloadId, expired, _, _, now) := s;
    if id < |b.rows| && PaymentMatches(b.rows[id], payload, payloadId, expired) {
      RowReplaced(b, id, TokenRecorded(b.rows[id], payload.value, now));
    }
  }

  lemma OperateKeeps(b: Book, s: Step)
    requires Solvent(b) && s.Operate? && !s.action.Requeue?
    ensures Solvent(Apply(b, s))
  {
    if s.id < |b.rows| && Operated(b.rows[s.id], s.action).Some? {
      RowReplaced(b, s.id, Operated(b.rows[s.id], s.action).value);
    }
  }

  /** A requeue is harmless exactly when the withdrawal still holds its reservation, or what it is due fits in what
      nobody else is owed. */
  predicate RequeueFits(b: Book, id: nat)
    requires id < |b.rows|
  {
    Active(b.rows[id]) || OwedTotal(b) + Due(b.rows[id]) <= b.balance + b.minerFees
  }

  lemma RequeueKeepsExactly(b: Book, id: nat)
    requires Solvent(b) && id < |b.rows| && Permitted(b.rows[id], Requeue)
    ensures Solvent(Apply(b, Operate(id, Requeue))) <==> RequeueFits(b, id)
  {
    var next := Operated(b.rows[id], Requeue).value;
    SumUpdate(Owed, b.rows, id, next);
    assert Owed(next) == Due(b.rows[id]) && Priced(next);
    var after := Apply(b, Operate(id, Requeue));
    assert after.rows == b.rows[id := next];
  }

  /** What can be checked before acting: only an admission, a requeue and a payment by hand can do harm. */
  predicate Harmless(b: Book, s: Step) {
    match s
    case Ask(_, _, _, _, _) => AdmissionFits(b, s)
    case Operate(id, Requeue) => id < |b.rows| && Permitted(b.rows[id], Requeue) ==> RequeueFits(b, id)
    case SendManually(amount, reply) =>
      amount > 0 && Sendable(b.balance, amount, reply) ==> OwedTotal(b) + amount <= b.balance + b.minerFees
    case _ => true
  }

  lemma OperateKeepsExactly(b: Book, s: Step)
    requires Solvent(b) && s.Operate?
    ensures Solvent(Apply(b, s)) <==> Harmless(b, s)
  {
    if !s.action.Requeue? {
      OperateKeeps(b, s);
    } else if s.id < |b.rows| && Permitted(b.rows[s.id], Requeue) {
      RequeueKeepsExactly(b, s.id);
    }
  }

  lemma WatchedKeeps(w: Withdrawal, status: Option<TxStatus>)
    requires Priced(w)
    ensures Priced(Watched(w, status)) && Owed(Watched(w, status)) <= Owed(w)
  {
  }

  lemma WatchKeeps(b: Book, s: Step)
    requires Solvent(b) && s.Watch?
    ensures Solvent(Apply(b, s))
  {
    var rows := WatchedAll(b.rows, s.seen);
    forall i | 0 <= i < |rows| ensures Priced(rows[i]) && Owed(rows[i]) <= Owed(b.rows[i]) {
      WatchedKeeps(b.rows[i], if b.rows[i].txid.Some? then s.seen(b.rows[i].txid.value) else None);
    }
    SumPointwise(Owed, rows, b.rows);
  }

  lemma SendKeepsExactly(b: Book, s: Step)
    requires Solvent(b) && s.SendManually?
    ensures Solvent(Apply(b, s)) <==> Harmless(b, s)
  {
  }

  /** A step keeps solvency exactly when it is harmless. */
  lemma StepKeepsExactly(b: Book, s: Step)
    requires Solvent(b)
    ensures Solvent(Apply(b, s)) <==> Harmless(b, s)
  {
    match s
    case Ask(_, _, _, _, _) => RequestKeepsExactly(b, s);
    case PayRequest(_, _, _, _, _, _, _) => PaymentKeeps(b, s);
    case Tick(_, _, _, _) => TickKeeps(b, s);
    case Watch(_) => WatchKeeps(b, s);
    case Operate(_, _) => OperateKeepsExactly(b, s);
    case SendManually(_, _) => SendKeepsExactly(b, s);
    case Incoming(_) =>
  }

  ghost predicate AlwaysSolvent(b: Book, steps: seq<Step>) { Always(Solvent, Apply, b, steps) }

  predicate AlwaysHarmless(b: Book, steps: seq<Step>) { EachStep(Harmless, Apply, b, steps) }

  /** A run is solvent throughout exactly when each of its steps is harmless in the state it is taken. */
  lemma SolventExactly(b: Book, steps: seq<Step>)
    requires Solvent(b)
    ensures AlwaysSolvent(b, steps) <==> AlwaysHarmless(b, steps)
  {
    forall x, t | Solvent(x) ensures Solvent(Apply(x, t)) <==> Harmless(x, t) { StepKeepsExactly(x, t); }
    AlwaysExactly((x: Book) => true, Solvent, Harmless, Apply, b, steps);
  }

  predicate ByHand(s: Step) { s.SendManually? || (s.Operate? && s.action.Requeue?) }

  /** The only condition that is left when the operator neither requeues nor pays by hand. */
  predicate RequestFits(b: Book, s: Step) { s.Ask? ==> AdmissionFits(b, s) }

  lemma {:induction false} OnlyRequests(b: Book, steps: seq<Step>)
    requires forall s :: s in steps ==> !ByHand(s)
    ensures AlwaysHarmless(b, steps) <==> EachStep(RequestFits, Apply, b, steps)
  {
    if steps != [] {
      OnlyRequests(b, steps[..|steps| - 1]);
      assert steps[|steps| - 1] in steps;
    }
  }

  /** While the operator neither requeues nor pays by hand, a run is solvent throughout exactly when each admission
      fits. */
  lemma UndisturbedIsSolvent(b: Book, steps: seq<Step>)
    requires Solvent(b) && forall s :: s in steps ==> !ByHand(s)
    ensures AlwaysSolvent(b, steps) <==> EachStep(RequestFits, Apply, b, steps)
  {
    OnlyRequests(b, steps);
    SolventExactly(b, steps);
  }

  /** The wallet reports no more than it has. */
  predicate Informed(b: Book, s: Step) { s.Ask? ==> s.raw <= b.balance }

  /** In particular as long as no admission is told more than the real balance. */
  lemma {:induction false} InformedIsSolvent(b: Book, steps: seq<Step>)
    requires Solvent(b) && forall s :: s in steps ==> !ByHand(s)
    requires EachStep(Informed, Apply, b, steps)
    ensures AlwaysSolvent(b, steps)
  {
    if steps != [] {
      var front, last := steps[..|steps| - 1], steps[|steps| - 1];
      InformedIsSolvent(b, front);
      assert last in steps && Solvent(Run(b, front));
      if last.Ask? { RequestKeeps(Run(b, front), last); }
      StepKeepsExactly(Run(b, front), last);
    }
  }

  function Wealth(b: Book): nat { b.balance + b.minerFees + b.paid }

  lemma {:induction false} WorkedAllConserves(b: Book, snapshot: seq<Withdrawal>, ids: seq<nat>, replies: Replies,
                                              maxAttempts: nat)
    requires |snapshot| == |b.rows| && forall k :: 0 <= k < |ids| ==> ids[k] < |b.rows|
    ensures Wealth(WorkedAll(b, snapshot, ids, replies, maxAttempts)) == Wealth(b)
  {
    if ids != [] { WorkedAllConserves(b, snapshot, ids[..|ids| - 1], replies, maxAttempts); }
  }

  /** Every satoshi received is still in the wallet, went to a miner or was paid out, whatever the steps. */
  lemma {:induction false} Conservation(b: Book, steps: seq<Step>)
    ensures Wealth(Run(b, steps)) == Wealth(b) + Received(steps)
  {
    if steps != [] {
      Conservation(b, steps[..|steps| - 1]);
      var before, s := Run(b, steps[..|steps| - 1]), steps[|steps| - 1];
      if s.Tick? {
        var rows := FundingPass(before.rows, s.now, s.status);
        WorkedAllConserves(before.(rows := rows), rows, InState(rows, Queued), s.replies, s.maxAttempts);
      }
    }
  }

  /** What left the wallet between two states of a run. */
  function Outflow(b: Book, t: Book): int { (t.paid + t.minerFees) - (b.paid + b.minerFees) }

  /** The balance of the last sync is not above the real one exactly when no more has been spent since than received;
      an admission that is told it then fits. */
  lemma LastSyncIsEnough(b: Book, steps: seq<Step>, s: Step)
    requires Solvent(Run(b, steps)) && s.Ask? && s.raw == b.balance
    ensures s.raw <= Run(b, steps).balance <==> Outflow(b, Run(b, steps)) <= Received(steps)
    ensures Outflow(b, Run(b, steps)) <= Received(steps) ==> AdmissionFits(Run(b, steps), s)
  {
    Conservation(b, steps);
    if s.raw <= Run(b, steps).balance { RequestKeeps(Run(b, steps), s); }
  }

  function Plain(amount: u64): Request { Request(amount, true, Parsed(Token("token", "mint", amount)), false, false) }

  const OPEN := Settings(true, 1, 0, Ratio(1, 1), true, true)

  const ASK := Ask(Plain(100), OPEN, 100, None, "")

  lemma AskGranted(rows: seq<Withdrawal>)
    requires ReservedTotal(rows) == 0
    ensures Apply(Book(rows, 100, 0, 0), ASK) == Book(rows + [NewRow(Plain(100), "", None)], 100, 0, 0)
  {
    assert RequestCap(rows, 100, OPEN.ratio) == 100;
  }

  const START := Book([], 100, 0, 0)
  const GRANTED := NewRow(Plain(100), "", None)
  const GIVEN_UP := ManualUpdate(GRANTED, Failed, None, Some("operator"), false)
  const REVIVED := ManualUpdate(GIVEN_UP, Queued, None, None, true)
  const FAIL := Operate(0, MarkFailed("operator"))
  const REVIVE := Operate(0, Requeue)

  lemma GivenUp()
    ensures Run(START, [ASK, FAIL]) == Book([GIVEN_UP], 100, 0, 0)
  {
    Asked();
    assert Run(START, [ASK, FAIL]) == Book([GIVEN_UP], 100, 0, 0) by {
      FoldExtends(Apply, START, [ASK], FAIL);
      assert [ASK] + [FAIL] == [ASK, FAIL] && [GRANTED][0 := GIVEN_UP] == [GIVEN_UP];
    }
  }

  lemma FailedThenReplaced()
    ensures Run(START, [ASK, FAIL, ASK]) == Book([GIVEN_UP, GRANTED], 100, 0, 0)
  {
    GivenUp();
    FoldExtends(Apply, START, [ASK, FAIL], ASK);
    assert [ASK, FAIL] + [ASK] == [ASK, FAIL, ASK];
    SumOfTwo(Reserved, GIVEN_UP, GRANTED);
    AskGranted([GIVEN_UP]);
  }

  lemma RevivedOverbooks(b: Book)
    requires b == Book([GIVEN_UP, GRANTED], 100, 0, 0)
    ensures OwedTotal(Apply(b, REVIVE)) == 200
  {
    assert b.rows[0 := REVIVED] == [REVIVED, GRANTED];
    SumOfTwo(Owed, REVIVED, GRANTED);
  }

  /** A requeue can break solvency: the reservation a failed withdrawal gave up may already back another one. */
  lemma RequeueBreaksSolvency()
    ensures Solvent(START)
    ensures !Solvent(Run(START, [ASK, FAIL, ASK, REVIVE]))
  {
    FailedThenReplaced();
    FoldExtends(Apply, START, [ASK, FAIL, ASK], REVIVE);
    assert [ASK, FAIL, ASK] + [REVIVE] == [ASK, FAIL, ASK, REVIVE];
    RevivedOverbooks(Run(START, [ASK, FAIL, ASK]));
  }

  const BY_HAND := SendManually(50, Some(Sent("txid", 0)))

  lemma Asked()
    ensures Run(START, [ASK]) == Book([GRANTED], 100, 0, 0)
  {
    FoldExtends(Apply, START, [], ASK);
    assert [] + [ASK] == [ASK] && [] + [GRANTED] == [GRANTED];
    AskGranted([]);
  }

  /** So can a payment by hand. */
  lemma PaymentByHandBreaksSolvency()
    ensures !Solvent(Run(START, [ASK, BY_HAND]))
  {
    Asked();
    FoldExtends(Apply, START, [ASK], BY_HAND);
    assert [ASK] + [BY_HAND] == [ASK, BY_HAND];
    SumOfTwo(Owed, GRANTED, GRANTED);
  }

  const REPLIES := Replies((id: nat) => Some(Redeemed(100, Some(0))), (id: nat) => Some(Sent("txid", 0)))
  const WORK := Tick(0, (id: nat) => QuoteStatus(Unpaid, 0, 0), REPLIES, 5)
  const PAID := Attempted(Consumed(GRANTED, 100, Some(0)), Settled, Some(100), Some("txid"), None)

  lemma WorkPays()
    ensures Apply(Book([GRANTED], 100, 0, 0), WORK) == Book([PAID], 0, 0, 100)
  {
    var b := Book([GRANTED], 100, 0, 0);
    assert FundingPass([GRANTED], 0, WORK.status) == [GRANTED];
    assert [GRANTED][..0] == [] && InState([], Queued) == [];
    assert InState([GRANTED], Queued) == [0];
    assert [0][..0] == [] && WorkedAll(b, [GRANTED], [], REPLIES, 5) == b;
    assert [GRANTED][0 := PAID] == [PAID];
    assert Worked(b, 0, GRANTED, REPLIES, 5) == Book([PAID], 0, 0, 100);
  }

  /** So can an admission that is told the balance of the last sync, although all handlers are atomic: a payout is not
      entered in the local database of the wallet. The sync here is the one at the start, and all it found is paid
      out. */
  lemma StaleBalanceBreaksSolvency()
    ensures Solvent(Run(START, [ASK, WORK])) && ASK.raw == START.balance
    ensures !Solvent(Run(START, [ASK, WORK, ASK]))
  {
    Asked();
    WorkPays();
    FoldExtends(Apply, START, [ASK], WORK);
    FoldExtends(Apply, START, [ASK, WORK], ASK);
    assert [ASK] + [WORK] == [ASK, WORK] && [ASK, WORK] + [ASK] == [ASK, WORK, ASK];
    SumOfTwo(Owed, PAID, GRANTED);
    SumOfTwo(Reserved, PAID, PAID);
    assert RequestCap([PAID], 100, OPEN.ratio) == 100;
    assert [PAID] + [GRANTED] == [PAID, GRANTED];
  }

  // Settled and archived withdrawals.

  /** With atomic handlers nothing touches a settled withdrawal. */
  lemma SettledIsFinal(b: Book, s: Step, id: nat)
    requires id < |b.rows| && b.rows[id].state == Settled
    ensures id < |Apply(b, s).rows| && Apply(b, s).rows[id] == b.rows[id]
  {
    if s.Tick? {
      var rows := FundingPass(b.rows, s.now, s.status);
      WorkedAllFrame(b.(rows := rows), rows, InState(rows, Queued), s.replies, s.maxAttempts, id);
    }
  }

  predicate Reopens(s: Step, id: nat) { s.Operate? && s.id == id && (s.action.MarkSettled? || s.action.MarkFailed?) }

  /** A step moves an archived withdrawal exactly when the operator marks it settled or failed. */
  lemma ArchivedMovesExactly(b: Book, s: Step, id: nat)
    requires id < |b.rows| && b.rows[id].state == ArchivedByOperator
    ensures id < |Apply(b, s).rows|
    ensures Apply(b, s).rows[id].state != ArchivedByOperator <==> Reopens(s, id)
  {
    if s.Tick? {
      var rows := FundingPass(b.rows, s.now, s.status);
      WorkedAllFrame(b.(rows := rows), rows, InState(rows, Queued), s.replies, s.maxAttempts, id);
    }
  }

  predicate Archived(b: Book, id: nat) { id < |b.rows| && b.rows[id].state == ArchivedByOperator }

  /** Over a run an archived withdrawal stays archived exactly while no step marks it settled or failed. */
  lemma ArchivedStaysExactly(b: Book, steps: seq<Step>, id: nat)
    requires Archived(b, id)
    ensures Always((x: Book) => Archived(x, id), Apply, b, steps)
       <==> EachStep((x: Book, s: Step) => !Reopens(s, id), Apply, b, steps)
  {
    var archived, spares := (x: Book) => Archived(x, id), (x: Book, s: Step) => !Reopens(s, id);
    forall x, t | archived(x) ensures archived(Apply(x, t)) <==> spares(x, t) { ArchivedMovesExactly(x, t, id); }
    AlwaysExactly((x: Book) => true, archived, spares, Apply, b, steps);
  }

  const ARCHIVE := Operate(0, Archive)
  const SETTLE := Operate(0, MarkSettled(None))

  /** Archiving is not final: a withdrawal that was given up and archived ends up settled. */
  lemma ArchivedIsSettled()
    ensures Archived(Run(START, [ASK, FAIL, ARCHIVE]), 0)
    ensures Run(START, [ASK, FAIL, ARCHIVE, SETTLE]) == Book([ChainState(GIVEN_UP.(error := None), Settled)], 100, 0, 0)
  {
    GivenUp();
    FoldExtends(Apply, START, [ASK, FAIL], ARCHIVE);
    assert [ASK, FAIL] + [ARCHIVE] == [ASK, FAIL, ARCHIVE];
    FoldExtends(Apply, START, [ASK, FAIL, ARCHIVE], SETTLE);
    assert [ASK, FAIL, ARCHIVE] + [SETTLE] == [ASK, FAIL, ARCHIVE, SETTLE];
  }
}

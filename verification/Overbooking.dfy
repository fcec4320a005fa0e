/** Runs of the interleaved tasks that overbook the on-chain wallet, each from a shop with 100 satoshis and nothing to
    pay. */
module Overbooking {
  import opened Prelude
  import opened Redemption
  import opened Withdrawals
  import opened Admission
  import opened SolvencyProtocol
  import P = WithdrawalProtocol
  import S = Solvency
  import W = WithdrawalWorker

  const START := Shop(P.Begin(5), 100, 0, 0, map[])
  const REQ := S.Plain(100)
  const WAITING := Asked(REQ, S.OPEN, 100, true)
  const UNPAID := P.History(100, [], 0, 0, 0, 0)
  const ADMIT := [ReadBalance(0, REQ, S.OPEN, 100), ReadReserved(0), Insert(0, None, "")]

  /** Nothing is reserved and no request is under way. */
  predicate Open(s: Shop) { s.balance == 100 && s.asked == map[] && ReservedTotal(s.tasks.rows) == 0 }

  lemma Admitted(s: Shop)
    requires Open(s)
    ensures Run(s, ADMIT)
         == s.(tasks := s.tasks.(rows := s.tasks.rows + [S.GRANTED], history := s.tasks.history + [UNPAID]))
  {
    FoldThree(Apply, s, ReadBalance(0, REQ, S.OPEN, 100), ReadReserved(0), Insert(0, None, ""));
    assert RequestCap(s.tasks.rows, 100, S.OPEN.ratio) == 100;
    var t := Apply(Apply(s, ReadBalance(0, REQ, S.OPEN, 100)), ReadReserved(0));
    assert t == s.(asked := map[0 := WAITING]);
    assert t.asked - {0} == map[];
  }

  const TAKEN_UP := ADMIT + [Task(P.FundingRead), Task(P.QueueRead)]
  const ROW := START.tasks.(rows := [S.GRANTED], history := [UNPAID])
  const QUEUE: P.Snapshot := map[0 := S.GRANTED]
  const HELD := ROW.(worker := P.Working(QUEUE))

  lemma QueueIsRead()
    ensures P.Apply(P.Apply(ROW, P.FundingRead), P.QueueRead) == HELD
  {
    assert ReadRows(P.StateOf, [S.GRANTED], {Queued}) == QUEUE;
  }

  lemma AdmittedRow()
    ensures Run(START, ADMIT) == START.(tasks := ROW)
  {
    Admitted(START);
    assert [] + [S.GRANTED] == [S.GRANTED] && [] + [UNPAID] == [UNPAID];
  }

  /** The worker has read the queue. */
  lemma TakenUp()
    ensures Run(START, TAKEN_UP) == START.(tasks := HELD)
  {
    FoldConcat(Apply, START, ADMIT, [Task(P.FundingRead), Task(P.QueueRead)]);
    AdmittedRow();
    FoldTwo(Apply, START.(tasks := ROW), Task(P.FundingRead), Task(P.QueueRead));
    QueueIsRead();
  }

  const FAIL := MarkFailed("operator")
  const GIVEN_UP := TAKEN_UP + [Task(P.OperatorRead(0, 0, FAIL)), Task(P.OperatorWrite(0))]
  const RELEASED := HELD.(rows := [S.GIVEN_UP])

  lemma MarkedFailed()
    ensures P.Apply(P.Apply(HELD, P.OperatorRead(0, 0, FAIL)), P.OperatorWrite(0)) == RELEASED
  {
    var read := P.Apply(HELD, P.OperatorRead(0, 0, FAIL));
    assert read == HELD.(operations := map[0 := P.Operation(0, S.GRANTED, FAIL)]);
    assert read.operations - {0} == map[];
    assert read.rows[0 := S.GIVEN_UP] == [S.GIVEN_UP] && read.history[0 := UNPAID] == [UNPAID];
  }

  /** The operator marks the withdrawal failed, which releases its reservation. */
  lemma GivenUp()
    ensures Run(START, GIVEN_UP) == START.(tasks := RELEASED)
  {
    FoldConcat(Apply, START, TAKEN_UP, [Task(P.OperatorRead(0, 0, FAIL)), Task(P.OperatorWrite(0))]);
    TakenUp();
    FoldTwo(Apply, START.(tasks := HELD), Task(P.OperatorRead(0, 0, FAIL)), Task(P.OperatorWrite(0)));
    MarkedFailed();
  }

  const REPLACED := GIVEN_UP + ADMIT
  const BOTH := RELEASED.(rows := [S.GIVEN_UP, S.GRANTED], history := [UNPAID, UNPAID])

  /** Another request takes its place. Every guard has been met so far. */
  lemma Replaced()
    ensures Run(START, REPLACED) == START.(tasks := BOTH) && Solvent(START.(tasks := BOTH))
  {
    FoldConcat(Apply, START, GIVEN_UP, ADMIT);
    GivenUp();
    SumOfTwo(Reserved, S.GIVEN_UP, S.GIVEN_UP);
    Admitted(START.(tasks := RELEASED));
    assert [S.GIVEN_UP] + [S.GRANTED] == [S.GIVEN_UP, S.GRANTED] && [UNPAID] + [UNPAID] == [UNPAID, UNPAID];
    SumOfTwo(S.Owed, S.GIVEN_UP, S.GRANTED);
  }

  const REDEEM := P.Redeem(0, Some(Redeemed(100, Some(0))))
  const PAID := REPLACED + [Task(REDEEM), Task(P.Consume), Pay(Some(W.Sent("txid", 0)))]

  lemma RedeemedLate()
    ensures P.Apply(P.Apply(BOTH, REDEEM), P.Consume)
         == BOTH.(rows := [Consumed(S.GIVEN_UP, 100, Some(0)), S.GRANTED],
                  history := [UNPAID.(redemptions := 1), UNPAID],
                  worker := P.Paying(0, S.GRANTED, 100, map[]))
  {
    var a := P.Apply(BOTH, REDEEM);
    assert QUEUE - {0} == map[];
    assert BOTH.history[0 := UNPAID.(redemptions := 1)] == [UNPAID.(redemptions := 1), UNPAID];
    assert a == BOTH.(worker := P.Storing(0, S.GRANTED, Redeemed(100, Some(0)), map[]),
                      history := [UNPAID.(redemptions := 1), UNPAID]);
    assert a.rows[0 := Consumed(S.GIVEN_UP, 100, Some(0))] == [Consumed(S.GIVEN_UP, 100, Some(0)), S.GRANTED];
  }

  /** The worker pays what it read before: no requeue, no payment by hand and no stale admission is needed. */
  lemma DelayedPaymentBreaksSolvency()
    ensures Solvent(Run(START, REPLACED)) && !Solvent(Run(START, PAID))
  {
    FoldConcat(Apply, START, REPLACED, [Task(REDEEM), Task(P.Consume), Pay(Some(W.Sent("txid", 0)))]);
    Replaced();
    FoldThree(Apply, START.(tasks := BOTH), Task(REDEEM), Task(P.Consume), Pay(Some(W.Sent("txid", 0))));
    RedeemedLate();
    SumOfTwo(S.Owed, Consumed(S.GIVEN_UP, 100, Some(0)), S.GRANTED);
  }

  const BACK := REPLACED + [Task(P.Redeem(0, None)), Task(P.Record)]
  const RETRIED := Attempted(S.GIVEN_UP, Queued, None, None, Some("redemption"))

  lemma FailedLate()
    ensures P.Apply(P.Apply(BOTH, P.Redeem(0, None)), P.Record).rows == [RETRIED, S.GRANTED]
    ensures P.Apply(P.Apply(BOTH, P.Redeem(0, None)), P.Record).worker.Working?
  {
    var a := P.Apply(BOTH, P.Redeem(0, None));
    assert a.worker == P.Failing(0, true, "redemption", QUEUE - {0}) && a.rows == BOTH.rows;
    assert a.rows[0 := RETRIED] == [RETRIED, S.GRANTED];
  }

  /** Nor when it fails: the record of the attempt puts the withdrawal back into the queue. */
  lemma DelayedFailureBreaksSolvency()
    ensures !Solvent(Run(START, BACK))
  {
    FoldConcat(Apply, START, REPLACED, [Task(P.Redeem(0, None)), Task(P.Record)]);
    Replaced();
    FoldTwo(Apply, START.(tasks := BOTH), Task(P.Redeem(0, None)), Task(P.Record));
    FailedLate();
    SumOfTwo(S.Owed, RETRIED, S.GRANTED);
  }

  const FIRST := [ReadBalance(0, REQ, S.OPEN, 100), ReadReserved(0)]
  const SECOND := [ReadBalance(1, REQ, S.OPEN, 100), ReadReserved(1)]
  const INSERTS := [Insert(0, None, ""), Insert(1, None, "")]

  lemma Granted(s: Shop, call: nat)
    requires s == START.(asked := s.asked) && call !in s.asked
    ensures Run(s, [ReadBalance(call, REQ, S.OPEN, 100), ReadReserved(call)])
         == s.(asked := s.asked[call := WAITING])
  {
    FoldTwo(Apply, s, ReadBalance(call, REQ, S.OPEN, 100), ReadReserved(call));
    assert RequestCap([], 100, S.OPEN.ratio) == 100;
    var t := Apply(s, ReadBalance(call, REQ, S.OPEN, 100));
    assert t.asked[call := WAITING] == s.asked[call := WAITING];
  }

  lemma BothInserted(s: Shop)
    requires s == START.(asked := map[0 := WAITING, 1 := WAITING])
    ensures var t := Run(s, INSERTS);
            t.tasks.rows == [S.GRANTED, S.GRANTED] && t.tasks.worker.Idle? && t.balance == 100 && t.minerFees == 0
  {
    FoldTwo(Apply, s, Insert(0, None, ""), Insert(1, None, ""));
    var t := Apply(s, Insert(0, None, ""));
    assert t.asked == map[1 := WAITING] && t.tasks.rows == [S.GRANTED];
  }

  /** Two requests are both granted the whole balance: six moves. */
  lemma StaleAdmissionBreaksSolvency()
    ensures Solvent(START) && !Solvent(Run(START, FIRST + SECOND + INSERTS))
  {
    FoldConcat(Apply, START, FIRST + SECOND, INSERTS);
    FoldConcat(Apply, START, FIRST, SECOND);
    Granted(START, 0);
    Granted(Run(START, FIRST), 1);
    BothInserted(Run(START, FIRST + SECOND));
    SumOfTwo(S.Owed, S.GRANTED, S.GRANTED);
  }
}

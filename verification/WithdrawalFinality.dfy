/** What it is worth that a withdrawal is settled or archived while other tasks hold older reads of it. */
module WithdrawalFinality {
  import opened Prelude
  import opened Redemption
  import opened Withdrawals
  import opened Admission
  import opened WithdrawalProtocol
  import opened PayoutRuns
  import W = WithdrawalWorker

  predicate Final(state: WithdrawalState) { state == Settled || state == ArchivedByOperator }

  predicate Rests(s: System, id: nat, final: WithdrawalState) {
    Final(final) && Exists(s, id) && s.rows[id].state == final
  }

  function Target(a: Action): WithdrawalState {
    match a
    case MarkSettled(_) => Settled
    case MarkFailed(_) => Failed
    case Requeue => Queued
    case Archive => ArchivedByOperator
  }

  /** The worker is done with the row, or has sent its payout and is about to record it as settled. */
  predicate WorkerQuiet(worker: Worker, id: nat, final: WithdrawalState) {
    id !in Queue(worker) && (At(worker, id) ==> worker.Paid? && worker.txid.Some? && final == Settled)
  }

  /** The watcher did not read it with a transaction and in a state that it would still move elsewhere. */
  predicate WatcherQuiet(watched: Snapshot, id: nat, final: WithdrawalState) {
    id in watched && watched[id].txid.Some? ==>
      watched[id].state != Broadcasting && (watched[id].state == Confirming ==> final == Settled)
  }

  predicate OperatorsQuiet(operations: map<nat, Operation>, id: nat, final: WithdrawalState) {
    forall op :: op in operations && operations[op].id == id ==> Target(operations[op].action) == final
  }

  predicate Quiet(s: System, id: nat, final: WithdrawalState) {
    WorkerQuiet(s.worker, id, final) && WatcherQuiet(s.watched, id, final) && OperatorsQuiet(s.operations, id, final)
  }

  /** The operator takes up the withdrawal anew, which only an archived one allows. */
  predicate TakesUp(step: Step, id: nat, final: WithdrawalState) {
    final == ArchivedByOperator && step.OperatorRead? && step.id == id
    && (step.action.MarkSettled? || step.action.MarkFailed?)
  }

  lemma QuietWorker(s: System, step: Step, id: nat, final: WithdrawalState)
    requires Rests(s, id, final) && Quiet(s, id, final)
    requires step.FundingRead? || step.QueueRead? || step.FundingWrite? || step.Consume? || step.HandOver?
             || step.EndTick?
    ensures Quiet(Apply(s, step), id, final)
  {
  }

  lemma QuietRedeem(s: System, entry: nat, reply: Option<Redeemed>, id: nat, final: WithdrawalState)
    requires Rests(s, id, final) && Quiet(s, id, final)
    ensures Quiet(RedeemStarted(s, entry, reply), id, final)
  {
  }

  lemma QuietSend(s: System, txid: Option<string>, id: nat, final: WithdrawalState)
    requires Rests(s, id, final) && Quiet(s, id, final)
    ensures Quiet(Sending(s, txid), id, final) && Quiet(Recording(s), id, final)
  {
  }

  lemma QuietOperator(s: System, step: Step, id: nat, final: WithdrawalState)
    requires Rests(s, id, final) && Quiet(s, id, final) && !TakesUp(step, id, final)
    requires step.OperatorRead? || step.OperatorWrite?
    ensures Quiet(Apply(s, step), id, final)
  {
  }

  lemma QuietOthers(s: System, step: Step, id: nat, final: WithdrawalState)
    requires Rests(s, id, final) && Quiet(s, id, final)
    requires step.Create? || step.CallbackRead? || step.CallbackWrite? || step.WatchRead? || step.WatchWrite?
    ensures Quiet(Apply(s, step), id, final)
  {
  }

  /** None of the writes that move such a withdrawal is at hand. */
  lemma NothingMoves(s: System, step: Step, id: nat, final: WithdrawalState)
    requires Inv(s) && Rests(s, id, final) && Quiet(s, id, final)
    ensures Rests(Apply(s, step), id, final)
  {
    StepKeeps(s, step);
    if final == Settled {
      SettledMovesExactly(s, step, id);
      assert !Unsettles(s, step, id);
    } else {
      ArchivedMovesExactly(s, step, id);
      assert !Unarchives(s, step, id);
    }
  }

  /** Nobody starts to work on a quiet settled or archived withdrawal, and nothing that is under way reaches it. */
  lemma QuietStep(s: System, step: Step, id: nat, final: WithdrawalState)
    requires Inv(s) && Rests(s, id, final) && Quiet(s, id, final) && !TakesUp(step, id, final)
    ensures Rests(Apply(s, step), id, final) && Quiet(Apply(s, step), id, final)
  {
    NothingMoves(s, step, id, final);
    match step
    case Redeem(entry, reply) => QuietRedeem(s, entry, reply, id, final);
    case Send(txid) => QuietSend(s, txid, id, final);
    case Record => QuietSend(s, None, id, final);
    case FundingRead => QuietWorker(s, step, id, final);
    case QueueRead => QuietWorker(s, step, id, final);
    case FundingWrite(_, _, _) => QuietWorker(s, step, id, final);
    case Consume => QuietWorker(s, step, id, final);
    case HandOver => QuietWorker(s, step, id, final);
    case EndTick => QuietWorker(s, step, id, final);
    case OperatorRead(_, _, _) => QuietOperator(s, step, id, final);
    case OperatorWrite(_) => QuietOperator(s, step, id, final);
    case _ => QuietOthers(s, step, id, final);
  }

  predicate NotTakenUp(steps: seq<Step>, id: nat, final: WithdrawalState) {
    forall k :: 0 <= k < |steps| ==> !TakesUp(steps[k], id, final)
  }

  lemma {:induction false} QuietRun(s: System, steps: seq<Step>, id: nat, final: WithdrawalState)
    requires Inv(s) && Rests(s, id, final) && Quiet(s, id, final) && NotTakenUp(steps, id, final)
    ensures Rests(From(s, steps), id, final) && Quiet(From(s, steps), id, final)
  {
    if steps != [] {
      QuietRun(s, steps[..|steps| - 1], id, final);
      RunKeeps(s, steps[..|steps| - 1]);
      QuietStep(From(s, steps[..|steps| - 1]), steps[|steps| - 1], id, final);
    }
  }

  // Anything else that is under way can still move it.

  /** Some continuation takes it out of its state without taking it up anew. */
  ghost predicate Leaves(s: System, id: nat, final: WithdrawalState) {
    exists steps :: Left(s, steps, id, final)
  }

  predicate Left(s: System, steps: seq<Step>, id: nat, final: WithdrawalState) {
    NotTakenUp(steps, id, final) && !Rests(From(s, steps), id, final)
  }

  lemma Witnessed(s: System, t: System, id: nat, final: WithdrawalState)
    requires WorksTo(s, t) && !Rests(t, id, final)
    ensures Leaves(s, id, final)
  {
    var steps :| Leads(Apply, Unprompted, s, t, steps);
    forall k | 0 <= k < |steps| ensures !TakesUp(steps[k], id, final) { assert steps[k] in steps; }
    assert Left(s, steps, id, final);
  }

  lemma RequestedInHand(s: System, id: nat)
    requires Inv(s) && Exists(s, id) && At(s.worker, id)
    ensures s.worker.Storing? || s.worker.Paying? ==> s.worker.seen.requested.Some?
  {
    assert Good(s.rows[id], s.history[id], s.worker, id);
  }

  lemma SentInVain(s: System, id: nat)
    requires Exists(s, id) && At(s.worker, id) && !s.worker.Storing?
    requires s.worker.Paying? ==> s.worker.seen.requested.Some?
    ensures Sending(s, None).rows == s.rows && Sending(s, None).history == s.history
    ensures if s.worker.Paying? then Sending(s, None).worker.Failing? && Sending(s, None).worker.id == id
            else Sending(s, None).worker == s.worker
  {
  }

  lemma RecordedMoves(s: System, id: nat, final: WithdrawalState)
    requires Final(final) && Exists(s, id) && At(s.worker, id) && !WorkerQuiet(s.worker, id, final)
    requires id !in Queue(s.worker) && (s.worker.Paid? || s.worker.Failing?)
    ensures Exists(Recording(s), id) && Recording(s).rows[id].state != final
  {
  }

  lemma PutAwayMoves(s: System, id: nat, final: WithdrawalState)
    requires Inv(s) && Rests(s, id, final) && At(s.worker, id) && !WorkerQuiet(s.worker, id, final)
    ensures Exists(PutAway(s), id) && PutAway(s).rows[id].state != final
  {
    RequestedInHand(s, id);
    var a := Consumption(s);
    assert Exists(a, id) && At(a.worker, id);
    SentInVain(a, id);
    assert id !in Queue(s.worker) by { assert Good(s.rows[id], s.history[id], s.worker, id); }
    RecordedMoves(Sending(a, None), id, final);
  }

  lemma HandMoves(s: System, a: System, id: nat, final: WithdrawalState)
    requires WorksTo(s, a) && Inv(a) && Rests(a, id, final) && At(a.worker, id) && !WorkerQuiet(a.worker, id, final)
    ensures Leaves(s, id, final)
  {
    var t := Dropped(s, a);
    PutAwayMoves(a, id, final);
    Witnessed(s, t, id, final);
  }

  lemma SnapshotMoves(s: System, id: nat, final: WithdrawalState)
    requires Inv(s) && Rests(s, id, final) && id in Queue(s.worker)
    ensures Leaves(s, id, final)
  {
    Here(s);
    assert Good(s.rows[id], s.history[id], s.worker, id);
    var a := ToWork(s, s, id);
    var b := Next(s, a, Redeem(id, None));
    assert b == RedeemStarted(a, id, None);
    HandMoves(s, b, id, final);
  }

  lemma OperatorMovesIt(s: System, op: nat, id: nat, final: WithdrawalState)
    requires Inv(s) && Rests(s, id, final)
    requires op in s.operations && s.operations[op].id == id && Target(s.operations[op].action) != final
    ensures Leaves(s, id, final)
  {
    Here(s);
    var t := Next(s, s, OperatorWrite(op));
    assert t == OperatorWritten(s, op);
    Witnessed(s, t, id, final);
  }

  lemma WatcherMovesIt(s: System, id: nat, final: WithdrawalState)
    requires Inv(s) && Rests(s, id, final) && !WatcherQuiet(s.watched, id, final)
    ensures Leaves(s, id, final)
  {
    Here(s);
    var status := Some(if s.watched[id].state == Broadcasting then Pending else Confirmed);
    var t := Next(s, s, WatchWrite(id, status));
    assert t == WatchWritten(s, id, status);
    Witnessed(s, t, id, final);
  }

  lemma Disturbed(s: System, id: nat, final: WithdrawalState)
    requires Inv(s) && Rests(s, id, final) && !Quiet(s, id, final)
    ensures Leaves(s, id, final)
  {
    if id in Queue(s.worker) {
      SnapshotMoves(s, id, final);
    } else if !WorkerQuiet(s.worker, id, final) {
      Here(s);
      HandMoves(s, s, id, final);
    } else if !WatcherQuiet(s.watched, id, final) {
      WatcherMovesIt(s, id, final);
    } else {
      var op :| op in s.operations && s.operations[op].id == id && Target(s.operations[op].action) != final;
      OperatorMovesIt(s, op, id, final);
    }
  }

  lemma Undisturbed(s: System, id: nat, final: WithdrawalState)
    requires Inv(s) && Rests(s, id, final) && Quiet(s, id, final)
    ensures !Leaves(s, id, final)
  {
    forall steps ensures !Left(s, steps, id, final) {
      if NotTakenUp(steps, id, final) { QuietRun(s, steps, id, final); }
    }
  }

  lemma FinalLeavesExactly(s: System, id: nat, final: WithdrawalState)
    requires Inv(s) && Rests(s, id, final)
    ensures Leaves(s, id, final) <==> !Quiet(s, id, final)
  {
    if Quiet(s, id, final) { Undisturbed(s, id, final); } else { Disturbed(s, id, final); }
  }

  /** Some continuation takes a settled withdrawal out of that state exactly when an entry of the worker or of the
      watcher, or a pending operator action, is left on it from before. */
  lemma SettledLeavesExactly(s: System, id: nat)
    requires Inv(s) && Rests(s, id, Settled)
    ensures (exists steps :: !Rests(From(s, steps), id, Settled)) <==> !Quiet(s, id, Settled)
  {
    FinalLeavesExactly(s, id, Settled);
    if steps :| !Rests(From(s, steps), id, Settled) { assert Left(s, steps, id, Settled); }
    if Leaves(s, id, Settled) { var steps :| Left(s, steps, id, Settled); }
  }

  /** The same for an archived withdrawal and the continuations in which the operator does not take it up anew to mark
      it settled or failed. */
  lemma ArchivedLeavesExactly(s: System, id: nat)
    requires Inv(s) && Rests(s, id, ArchivedByOperator)
    ensures Leaves(s, id, ArchivedByOperator) <==> !Quiet(s, id, ArchivedByOperator)
  {
    FinalLeavesExactly(s, id, ArchivedByOperator);
  }
}

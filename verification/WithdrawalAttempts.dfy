/** How often a withdrawal is worked on (workers/withdrawal.rs), when the tasks interleave. */
module WithdrawalAttempts {
  import opened Prelude
  import opened Redemption
  import opened Withdrawals
  import opened Admission
  import opened WithdrawalProtocol
  import W = WithdrawalWorker

  /** The attempts a row has used, against the limit and against what the worker has read of it. */
  predicate Timely(row: Withdrawal, worker: Worker, id: nat, limit: nat) {
    && row.attempts <= limit
    && (row.state == Funding || row.state == Queued ==> row.attempts < limit)
    && (id in Queue(worker) ==> row.attempts <= Queue(worker)[id].attempts < limit)
    && (At(worker, id) ==> row.attempts < limit)
    && ((worker.Storing? || worker.Paying?) && worker.id == id ==> row.attempts <= worker.seen.attempts < limit)
    && (worker.Failing? && worker.id == id && worker.again ==> row.attempts + 1 < limit)
  }

  predicate InTime(s: System, id: nat) { Exists(s, id) && Timely(s.rows[id], s.worker, id, s.maxAttempts) }

  /** Attempts used, the one under way included. */
  function Used(s: System, id: nat): nat
    requires Exists(s, id)
  {
    s.rows[id].attempts + if At(s.worker, id) then 1 else 0
  }

  /** The worker starts to work on the withdrawal. */
  predicate Starts(s: System, step: Step, id: nat) {
    && step.Redeem? && step.id == id && Exists(s, id)
    && s.worker.Working? && id in s.worker.queue && FromRedeem(s.worker.queue[id], step.reply)
  }

  /** The use of attempts that a step has to account for: each start of work takes one, each requeue gives all back. */
  predicate Accounts(s: System, t: System, started: bool, id: nat) {
    && InTime(s, id) && InTime(t, id) && t.maxAttempts == s.maxAttempts
    && s.history[id].requeues <= t.history[id].requeues <= s.history[id].requeues + 1
    && Used(s, id) + (if started then 1 else 0)
       <= Used(t, id) + if t.history[id].requeues > s.history[id].requeues then s.maxAttempts else 0
  }

  lemma ReadAccounts(s: System, step: Step, id: nat)
    requires InTime(s, id)
    requires step.Create? || step.CallbackRead? || step.WatchRead? || step.OperatorRead?
    ensures Accounts(s, Apply(s, step), false, id)
  {
  }

  lemma SnapshotAccounts(s: System, step: Step, id: nat)
    requires InTime(s, id)
    requires step.FundingRead? || step.QueueRead? || step.EndTick?
    ensures Accounts(s, Apply(s, step), false, id)
  {
  }

  lemma CallbackAccounts(s: System, call: nat, raw: u64, ratio: CapRatio, now: int, id: nat)
    requires InTime(s, id)
    ensures Accounts(s, CallbackWritten(s, call, raw, ratio, now), false, id)
  {
  }

  lemma FundingAccounts(s: System, entry: nat, now: int, report: W.QuoteStatus, id: nat)
    requires InTime(s, id)
    ensures Accounts(s, FundingWritten(s, entry, now, report), false, id)
  {
  }

  lemma RedeemAccounts(s: System, entry: nat, reply: Option<Redeemed>, id: nat)
    requires InTime(s, id)
    ensures Accounts(s, RedeemStarted(s, entry, reply), Starts(s, Redeem(entry, reply), id), id)
  {
  }

  lemma ConsumeAccounts(s: System, id: nat)
    requires InTime(s, id)
    ensures Accounts(s, Consumption(s), false, id)
  {
  }

  lemma HandOverAccounts(s: System, id: nat)
    requires InTime(s, id)
    ensures Accounts(s, HandedOver(s), false, id)
  {
  }

  lemma SendAccounts(s: System, txid: Option<string>, id: nat)
    requires InTime(s, id)
    ensures Accounts(s, Sending(s, txid), false, id)
  {
  }

  lemma NotQueuedInHand(s: System, id: nat)
    requires Inv(s) && Exists(s, id) && At(s.worker, id)
    ensures id !in Queue(s.worker)
  {
    assert Good(s.rows[id], s.history[id], s.worker, id);
  }

  lemma RecordAccounts(s: System, id: nat)
    requires InTime(s, id) && (At(s.worker, id) ==> id !in Queue(s.worker))
    ensures Accounts(s, Recording(s), false, id)
  {
  }

  lemma WatchAccounts(s: System, entry: nat, status: Option<TxStatus>, id: nat)
    requires InTime(s, id)
    ensures Accounts(s, WatchWritten(s, entry, status), false, id)
  {
  }

  lemma OperatorAccounts(s: System, op: nat, id: nat)
    requires InTime(s, id) && s.maxAttempts > 0
    ensures Accounts(s, OperatorWritten(s, op), false, id)
  {
  }

  lemma WorkerAccounts(s: System, step: Step, id: nat)
    requires Inv(s) && InTime(s, id)
    requires step.Consume? || step.HandOver? || step.Send? || step.Record?
    ensures Accounts(s, Apply(s, step), false, id)
  {
    match step
    case Consume => ConsumeAccounts(s, id);
    case HandOver => HandOverAccounts(s, id);
    case Send(txid) => SendAccounts(s, txid, id);
    case Record =>
      if At(s.worker, id) { NotQueuedInHand(s, id); }
      RecordAccounts(s, id);
  }

  lemma WriteAccounts(s: System, step: Step, id: nat)
    requires Inv(s) && InTime(s, id) && s.maxAttempts > 0
    requires step.CallbackWrite? || step.FundingWrite? || step.WatchWrite? || step.OperatorWrite?
    ensures Accounts(s, Apply(s, step), false, id)
  {
    match step
    case CallbackWrite(call, raw, ratio, now) => CallbackAccounts(s, call, raw, ratio, now, id);
    case FundingWrite(entry, now, report) => FundingAccounts(s, entry, now, report, id);
    case WatchWrite(entry, status) => WatchAccounts(s, entry, status, id);
    case OperatorWrite(op) => OperatorAccounts(s, op, id);
  }

  lemma StepAccounts(s: System, step: Step, id: nat)
    requires Inv(s) && InTime(s, id) && s.maxAttempts > 0
    ensures Accounts(s, Apply(s, step), Starts(s, step, id), id)
  {
    if step.Redeem? {
      RedeemAccounts(s, step.id, step.reply, id);
    } else if step.Consume? || step.HandOver? || step.Send? || step.Record? {
      WorkerAccounts(s, step, id);
    } else if step.CallbackWrite? || step.FundingWrite? || step.WatchWrite? || step.OperatorWrite? {
      WriteAccounts(s, step, id);
    } else if step.FundingRead? || step.QueueRead? || step.EndTick? {
      SnapshotAccounts(s, step, id);
    } else {
      ReadAccounts(s, step, id);
    }
  }

  /** How often the worker starts to work on the withdrawal over a run. */
  function Executions(s: System, steps: seq<Step>, id: nat): nat {
    Count((x: System, step: Step) => Starts(x, step, id), Apply, s, steps)
  }

  /** The requeue writes of a run. */
  function Requeues(s: System, t: System, id: nat): int
    requires Exists(s, id) && Exists(t, id)
  {
    t.history[id].requeues - s.history[id].requeues
  }

  /** So many executions are paid for by the attempts used now and by the requeues in between. */
  predicate PaidFor(s: System, t: System, executions: nat, id: nat) {
    && Exists(s, id) && InTime(t, id) && t.maxAttempts == s.maxAttempts && Requeues(s, t, id) >= 0
    && executions + Used(s, id) <= Used(t, id) + Requeues(s, t, id) * s.maxAttempts
  }

  lemma OneMoreStep(s: System, t: System, u: System, executions: nat, started: bool, id: nat)
    requires PaidFor(s, t, executions, id) && Accounts(t, u, started, id)
    ensures PaidFor(s, u, executions + if started then 1 else 0, id)
  {
    OneMore(Requeues(s, t, id), s.maxAttempts);
  }

  lemma {:induction false} RunAccounts(s: System, steps: seq<Step>, id: nat)
    requires Inv(s) && InTime(s, id) && s.maxAttempts > 0
    ensures PaidFor(s, From(s, steps), Executions(s, steps, id), id)
  {
    if steps != [] {
      var front, last := steps[..|steps| - 1], steps[|steps| - 1];
      RunAccounts(s, front, id);
      RunKeeps(s, front);
      StepAccounts(From(s, front), last, id);
      OneMoreStep(s, From(s, front), From(s, steps), Executions(s, front, id), Starts(From(s, front), last, id), id);
    }
  }

  /** In every interleaving the worker works on a withdrawal at most `maxAttempts` times more than its requeue writes
      allow. */
  lemma ExecutionsBounded(s: System, steps: seq<Step>, id: nat)
    requires Inv(s) && InTime(s, id) && s.maxAttempts > 0
    ensures Exists(From(s, steps), id)
    ensures Executions(s, steps, id) <= (1 + Requeues(s, From(s, steps), id)) * s.maxAttempts
  {
    RunAccounts(s, steps, id);
    OneMore(Requeues(s, From(s, steps), id), s.maxAttempts);
  }

  lemma NewRowInTime(s: System, step: Step, id: nat)
    requires Inv(s) && s.maxAttempts > 0 && Exists(Apply(s, step), id) && !Exists(s, id)
    ensures step.Create? && InTime(Apply(s, step), id)
  {
  }

  /** Every withdrawal of every run from an empty table is one to which the bound applies. */
  lemma {:induction false} RunInTime(maxAttempts: nat, steps: seq<Step>, id: nat)
    requires maxAttempts > 0 && Exists(Run(maxAttempts, steps), id)
    ensures Inv(Run(maxAttempts, steps)) && Run(maxAttempts, steps).maxAttempts == maxAttempts
    ensures InTime(Run(maxAttempts, steps), id)
  {
    RunKeeps(Begin(maxAttempts), steps);
    if steps != [] {
      var before, last := Run(maxAttempts, steps[..|steps| - 1]), steps[|steps| - 1];
      RunKeeps(Begin(maxAttempts), steps[..|steps| - 1]);
      LimitStays(maxAttempts, steps[..|steps| - 1]);
      if Exists(before, id) {
        RunInTime(maxAttempts, steps[..|steps| - 1], id);
        StepAccounts(before, last, id);
      } else {
        NewRowInTime(before, last, id);
      }
    }
    LimitStays(maxAttempts, steps);
  }

  lemma LimitStays(maxAttempts: nat, steps: seq<Step>)
    ensures Run(maxAttempts, steps).maxAttempts == maxAttempts
  {
    forall x: System, step | x.maxAttempts == maxAttempts ensures Apply(x, step).maxAttempts == maxAttempts {}
    FoldKeeps((x: System) => x.maxAttempts == maxAttempts, Apply, Begin(maxAttempts), steps);
  }
}

/** How long a withdrawal can stay in the queue (workers/withdrawal.rs), with atomic handlers. */
module WithdrawalLife {
  import opened Prelude
  import opened Redemption
  import opened Withdrawals
  import opened Admission
  import opened WithdrawalWorker
  import opened Solvency

  /** Attempts never exceed the limit, and one that is waiting has some left. */
  predicate Timely(w: Withdrawal, limit: nat) {
    w.attempts <= limit && (w.state == Funding || w.state == Queued ==> w.attempts < limit)
  }

  /** The step works on the withdrawal: it is a tick that finds it queued after the funding pass. */
  predicate Executes(b: Book, s: Step, id: nat) {
    s.Tick? && id < |b.rows| && FundingChecked(b.rows[id], s.now, s.status(id)).state == Queued
  }

  predicate Requeues(b: Book, s: Step, id: nat) {
    s == Operate(id, Requeue) && id < |b.rows| && Permitted(b.rows[id], Requeue)
  }

  lemma {:induction false} InStateComplete(rows: seq<Withdrawal>, state: WithdrawalState, id: nat)
    requires id < |rows|
    ensures id in InState(rows, state) <==> rows[id].state == state
  {
    var n := |rows| - 1;
    if id < n {
      InStateComplete(rows[..n], state, id);
    } else {
      assert forall k :: 0 <= k < |InState(rows[..n], state)| ==> InState(rows[..n], state)[k] < n;
    }
  }

  lemma WorkedRow(b: Book, id: nat, replies: Replies, limit: nat)
    requires id < |b.rows| && b.rows[id].state == Queued && Timely(b.rows[id], limit)
    ensures Timely(Worked(b, id, b.rows[id], replies, limit).rows[id], limit)
    ensures Worked(b, id, b.rows[id], replies, limit).rows[id].attempts == b.rows[id].attempts + 1
  {
  }

  lemma {:induction false} WorkedOnce(b: Book, ids: seq<nat>, replies: Replies, limit: nat, id: nat)
    requires forall k :: 0 <= k < |ids| ==> ids[k] < |b.rows|
    requires forall i, j :: 0 <= i < j < |ids| ==> ids[i] < ids[j]
    requires id in ids && b.rows[id].state == Queued && Timely(b.rows[id], limit)
    ensures var after := WorkedAll(b, b.rows, ids, replies, limit).rows[id];
            Timely(after, limit) && after.attempts == b.rows[id].attempts + 1
  {
    var n, front := |ids| - 1, ids[..|ids| - 1];
    var before := WorkedAll(b, b.rows, front, replies, limit);
    if ids[n] == id {
      WorkedAllFrame(b, b.rows, front, replies, limit, id);
      WorkedRow(before, id, replies, limit);
    } else {
      WorkedOnce(b, front, replies, limit, id);
    }
  }

  lemma TickRow(b: Book, s: Step, id: nat)
    requires s.Tick? && id < |b.rows| && Timely(b.rows[id], s.maxAttempts)
    ensures var after := Apply(b, s).rows[id];
            && Timely(after, s.maxAttempts)
            && after.attempts == b.rows[id].attempts + if Executes(b, s, id) then 1 else 0
  {
    var rows := FundingPass(b.rows, s.now, s.status);
    var funded := b.(rows := rows);
    assert Timely(rows[id], s.maxAttempts) && rows[id].attempts == b.rows[id].attempts;
    InStateComplete(rows, Queued, id);
    InStateAscends(rows, Queued);
    if id in InState(rows, Queued) {
      WorkedOnce(funded, InState(rows, Queued), s.replies, s.maxAttempts, id);
    } else {
      WorkedAllFrame(funded, rows, InState(rows, Queued), s.replies, s.maxAttempts, id);
    }
  }

  /** Each execution costs an attempt, and only a requeue gives them back. */
  lemma StepRow(b: Book, s: Step, id: nat, limit: nat)
    requires limit > 0 && id < |b.rows| && Timely(b.rows[id], limit)
    requires s.Tick? ==> s.maxAttempts == limit
    ensures id < |Apply(b, s).rows| && Timely(Apply(b, s).rows[id], limit)
    ensures Apply(b, s).rows[id].attempts
         == if Requeues(b, s, id) then 0 else b.rows[id].attempts + if Executes(b, s, id) then 1 else 0
  {
    if s.Tick? { TickRow(b, s, id); }
  }

  function Executions(b: Book, steps: seq<Step>, id: nat): nat {
    Count((x: Book, s: Step) => Executes(x, s, id), Apply, b, steps)
  }

  function Requeuings(b: Book, steps: seq<Step>, id: nat): nat {
    Count((x: Book, s: Step) => Requeues(x, s, id), Apply, b, steps)
  }

  predicate Tracked(b: Book, id: nat, limit: nat) { id < |b.rows| && Timely(b.rows[id], limit) }

  function AttemptsOf(b: Book, id: nat): nat { if id < |b.rows| then b.rows[id].attempts else 0 }

  predicate Fitting(s: Step, limit: nat) { s.Tick? ==> s.maxAttempts == limit }

  lemma AttemptsPay(b: Book, steps: seq<Step>, id: nat, limit: nat)
    requires limit > 0 && Tracked(b, id, limit)
    requires forall s :: s in steps ==> Fitting(s, limit)
    ensures Tracked(Run(b, steps), id, limit)
    ensures Executions(b, steps, id) + AttemptsOf(b, id)
         <= AttemptsOf(Run(b, steps), id) + Requeuings(b, steps, id) * limit
  {
    var good, fits := (x: Book) => Tracked(x, id, limit), (s: Step) => Fitting(s, limit);
    var used := (x: Book) => AttemptsOf(x, id);
    var uses, resets := (x: Book, s: Step) => Executes(x, s, id), (x: Book, s: Step) => Requeues(x, s, id);
    forall x, s | good(x) && fits(s)
      ensures good(Apply(x, s)) && !(uses(x, s) && resets(x, s))
      ensures used(Apply(x, s)) == if resets(x, s) then 0 else used(x) + if uses(x, s) then 1 else 0
    {
      StepRow(x, s, id, limit);
    }
    Amortized(good, fits, used, limit, uses, resets, Apply, b, steps);
  }

  /** Over every run a withdrawal is worked on at most `limit` times more than its requeues allow, and fewer while it is
      queued. */
  lemma ExecutionsBounded(b: Book, steps: seq<Step>, id: nat, limit: nat)
    requires limit > 0 && Tracked(b, id, limit)
    requires forall s :: s in steps ==> Fitting(s, limit)
    ensures id < |Run(b, steps).rows|
    ensures Executions(b, steps, id) <= (1 + Requeuings(b, steps, id)) * limit
    ensures Run(b, steps).rows[id].state == Queued ==> Executions(b, steps, id) < (1 + Requeuings(b, steps, id)) * limit
  {
    AttemptsPay(b, steps, id, limit);
    OneMore(Requeuings(b, steps, id), limit);
  }

  lemma QueuedIsExecuted(b: Book, s: Step, id: nat)
    requires s.Tick? && id < |b.rows| && b.rows[id].state == Queued
    ensures Executes(b, s, id)
  {
  }

  predicate InQueue(b: Book, id: nat) { id < |b.rows| && b.rows[id].state == Queued }

  function Ticks(steps: seq<Step>): nat { Sum((s: Step) => if s.Tick? then 1 else 0, steps) }

  /** A withdrawal that stays queued uses one attempt in every tick. */
  lemma {:induction false} QueuedUsesAttempts(b: Book, steps: seq<Step>, id: nat, limit: nat)
    requires limit > 0 && Tracked(b, id, limit)
    requires forall s :: s in steps ==> Fitting(s, limit)
    requires Always((x: Book) => InQueue(x, id), Apply, b, steps)
    ensures Tracked(Run(b, steps), id, limit)
    ensures AttemptsOf(Run(b, steps), id) == AttemptsOf(b, id) + Ticks(steps)
  {
    if steps != [] {
      var front, last := steps[..|steps| - 1], steps[|steps| - 1];
      QueuedUsesAttempts(b, front, id, limit);
      var before := Run(b, front);
      assert Always((x: Book) => InQueue(x, id), Apply, b, front) && InQueue(before, id);
      assert last in steps;
      StepRow(before, last, id, limit);
      if last.Tick? { QueuedIsExecuted(before, last, id); }
    }
  }

  /** Hence it stays queued only while the ticks of the run have not used up the attempts it has left. */
  lemma LeavesQueue(b: Book, steps: seq<Step>, id: nat, limit: nat)
    requires limit > 0 && Tracked(b, id, limit)
    requires forall s :: s in steps ==> Fitting(s, limit)
    ensures Always((x: Book) => InQueue(x, id), Apply, b, steps) ==> b.rows[id].attempts + Ticks(steps) < limit
  {
    if Always((x: Book) => InQueue(x, id), Apply, b, steps) {
      QueuedUsesAttempts(b, steps, id, limit);
      assert InQueue(Run(b, steps), id);
    }
  }

  /** An attempt that fails, in redeeming or in sending, costs the withdrawal its place in the queue exactly when it was
      the last one; one that succeeds settles it. */
  lemma WorkedExactly(b: Book, id: nat, replies: Replies, limit: nat)
    requires id < |b.rows| && b.rows[id].state == Queued
    ensures var w, claim := b.rows[id], ClaimOf(b.rows[id], replies.redeem(id));
            var t := Worked(b, id, w, replies, limit);
            var sent := claim.Some? && Sendable(b.balance, Payout(claim.value.value, w.requested.GetOr(0)),
                                                replies.send(id));
            && (t.rows[id].state == Settled <==> sent)
            && (t.rows[id].state == Queued <==> !sent && w.attempts + 1 < limit)
            && (t.rows[id].state == Failed <==> !sent && limit <= w.attempts + 1)
            && t.rows[id].attempts == w.attempts + 1 && (t.rows[id].error.Some? <==> !sent)
  {
  }

  /** Nothing redeems the withdrawal in this step, and the operator leaves it alone. */
  predicate Unanswered(s: Step, id: nat, limit: nat) {
    && (s.Tick? ==> s.maxAttempts == limit && s.replies.redeem(id).None?)
    && !(s.Operate? && s.id == id)
  }

  lemma UnansweredTick(b: Book, s: Step, id: nat, limit: nat)
    requires s.Tick? && Unanswered(s, id, limit) && InQueue(b, id) && !b.rows[id].tokenConsumed
    ensures var before, after := b.rows[id], Apply(b, s).rows[id];
            && after.attempts == before.attempts + 1 && !after.tokenConsumed
            && after.state == if before.attempts + 1 < limit then Queued else Failed
  {
    var rows := FundingPass(b.rows, s.now, s.status);
    var ids := InState(rows, Queued);
    InStateAscends(rows, Queued);
    InStateComplete(rows, Queued, id);
    UnansweredWork(b.(rows := rows), ids, s.replies, limit, id);
  }

  lemma {:induction false} UnansweredWork(b: Book, ids: seq<nat>, replies: Replies, limit: nat, id: nat)
    requires forall k :: 0 <= k < |ids| ==> ids[k] < |b.rows|
    requires forall i, j :: 0 <= i < j < |ids| ==> ids[i] < ids[j]
    requires id in ids && InQueue(b, id) && !b.rows[id].tokenConsumed && replies.redeem(id).None?
    ensures var after := WorkedAll(b, b.rows, ids, replies, limit).rows[id];
            && after.attempts == b.rows[id].attempts + 1 && !after.tokenConsumed
            && after.state == if b.rows[id].attempts + 1 < limit then Queued else Failed
  {
    var n, front := |ids| - 1, ids[..|ids| - 1];
    if ids[n] == id { WorkedAllFrame(b, b.rows, front, replies, limit, id); } else {
      UnansweredWork(b, front, replies, limit, id);
    }
  }

  /** The whole retry budget is granted: a withdrawal whose token cannot be redeemed stays queued through so many ticks,
      one less than it has attempts left, whatever else happens. */
  lemma {:induction false} BudgetIsGranted(b: Book, steps: seq<Step>, id: nat, limit: nat)
    requires InQueue(b, id) && !b.rows[id].tokenConsumed && b.rows[id].attempts + Ticks(steps) < limit
    requires forall s :: s in steps ==> Unanswered(s, id, limit)
    ensures var t := Run(b, steps);
            InQueue(t, id) && !t.rows[id].tokenConsumed && t.rows[id].attempts == b.rows[id].attempts + Ticks(steps)
  {
    if steps != [] {
      var front, last := steps[..|steps| - 1], steps[|steps| - 1];
      BudgetIsGranted(b, front, id, limit);
      assert last in steps;
      if last.Tick? { UnansweredTick(Run(b, front), last, id, limit); }
    }
  }

  /** Every row that admission creates is timely. */
  lemma NewRowIsTimely(req: Request, requestId: string, quote: Option<Quote>, limit: nat)
    requires limit > 0
    ensures Timely(NewRow(req, requestId, quote), limit)
  {
  }

  ghost predicate AllTimely(b: Book, limit: nat) { forall id :: 0 <= id < |b.rows| ==> Timely(b.rows[id], limit) }

  lemma StepTimely(b: Book, s: Step, limit: nat)
    requires limit > 0 && AllTimely(b, limit) && Fitting(s, limit)
    ensures AllTimely(Apply(b, s), limit)
  {
    forall id | 0 <= id < |Apply(b, s).rows| ensures Timely(Apply(b, s).rows[id], limit) {
      if id < |b.rows| {
        StepRow(b, s, id, limit);
      } else {
        NewRowIsTimely(s.req, s.requestId, s.quote, limit);
      }
    }
  }

  /** Hence every row of every run from an empty table is. */
  lemma {:induction false} RunTimely(b: Book, steps: seq<Step>, limit: nat)
    requires limit > 0 && AllTimely(b, limit)
    requires forall s :: s in steps ==> Fitting(s, limit)
    ensures AllTimely(Run(b, steps), limit)
  {
    if steps != [] {
      RunTimely(b, steps[..|steps| - 1], limit);
      assert steps[|steps| - 1] in steps;
      StepTimely(Run(b, steps[..|steps| - 1]), steps[|steps| - 1], limit);
    }
  }
}

/** What archiving a deposit is worth while other tasks hold older reads of it. */
module DepositArchive {
  import opened Prelude
  import opened Deposits
  import opened Confirmations
  import opened DepositWorker
  import opened DepositProtocol

  predicate Archived(s: System, id: nat) { id < |s.rows| && s.rows[id].state == ArchivedByOperator }

  /** No task holds an older read of the deposit, and no operator action other than archiving is still to be written. */
  ghost predicate Quiet(s: System, id: nat) {
    && AroundOf(s, id).watched.None? && AroundOf(s, id).toMint.None?
    && AroundOf(s, id).answer.None? && AroundOf(s, id).toDeliver.None?
    && forall op :: op in s.operations && s.operations[op].id == id ==> s.operations[op].action.Archive?
  }

  lemma ReadsAvoid(rows: seq<Deposit>, states: set<DepositState>, id: nat)
    requires id < |rows| && rows[id].state !in states
    ensures id !in ReadRows(StateOf, rows, states)
  {
  }

  ghost predicate AtRest(s: System, id: nat) { Archived(s, id) && Quiet(s, id) && id !in s.locks }

  lemma QuietWatch(s: System, id: nat, i: nat, obs: seq<Observation>, tip: nat)
    requires AtRest(s, id)
    ensures Archived(WatchWritten(s, i, obs, tip), id) && Quiet(WatchWritten(s, i, obs, tip), id)
  {
  }

  lemma QuietCall(s: System, id: nat, i: nat, reply: MintReply)
    requires AtRest(s, id)
    ensures Archived(MintCalled(s, i, reply), id) && Quiet(MintCalled(s, i, reply), id)
  {
  }

  lemma QuietRecord(s: System, id: nat)
    requires AtRest(s, id)
    ensures Archived(MintRecorded(s), id) && Quiet(MintRecorded(s), id)
  {
  }

  lemma QuietDeliver(s: System, id: nat, i: nat)
    requires AtRest(s, id)
    ensures Archived(Delivered(s, i), id) && Quiet(Delivered(s, i), id)
  {
  }

  lemma QuietOperator(s: System, id: nat, op: nat)
    requires AtRest(s, id)
    ensures Archived(OperatorWritten(s, op), id) && Quiet(OperatorWritten(s, op), id)
  {
  }

  lemma QuietPickup(s: System, id: nat, i: nat)
    requires AtRest(s, id)
    ensures Archived(PickedUp(s, i), id) && Quiet(PickedUp(s, i), id)
  {
  }

  lemma QuietReads(s: System, step: Step, id: nat)
    requires AtRest(s, id)
    requires step.WatchRead? || step.MintRead? || step.DeliveryRead? || step.EndTick? || step.OperatorRead?
    ensures Archived(Apply(s, step), id) && Quiet(Apply(s, step), id)
  {
    ReadsAvoid(s.rows, OPEN_STATES, id);
    ReadsAvoid(s.rows, {Minting}, id);
    ReadsAvoid(s.rows, {Delivering}, id);
  }

  lemma QuietRest(s: System, step: Step, id: nat)
    requires AtRest(s, id)
    requires step.Create? || step.ExpireRow? || step.PickupRead? || step.PickupAbort?
    ensures Archived(Apply(s, step), id) && Quiet(Apply(s, step), id)
  {
  }

  /** Nobody starts to work on a quiet archived deposit, and nothing that is under way reaches it. */
  lemma QuietStep(s: System, step: Step, id: nat)
    requires Inv(s) && Archived(s, id) && Quiet(s, id)
    ensures Archived(Apply(s, step), id) && Quiet(Apply(s, step), id)
  {
    assert AtRest(s, id) by {
      assert Good(s.rows[id], s.history[id], AroundOf(s, id), s.maxAttempts);
      assert AroundOf(s, id).lock.None?;
    }
    match step
    case WatchWrite(i, obs, tip) => QuietWatch(s, id, i, obs, tip);
    case CallMint(i, reply) => QuietCall(s, id, i, reply);
    case RecordMint => QuietRecord(s, id);
    case Deliver(i) => QuietDeliver(s, id, i);
    case OperatorWrite(op) => QuietOperator(s, id, op);
    case PickupCommit(i) => QuietPickup(s, id, i);
    case Create(_, _, _, _) => QuietRest(s, step, id);
    case ExpireRow(_, _) => QuietRest(s, step, id);
    case PickupRead(_, _) => QuietRest(s, step, id);
    case PickupAbort(_) => QuietRest(s, step, id);
    case _ => QuietReads(s, step, id);
  }

  lemma {:induction false} QuietRun(s: System, steps: seq<Step>, id: nat)
    requires Inv(s) && Archived(s, id) && Quiet(s, id)
    ensures Archived(From(s, steps), id) && Quiet(From(s, steps), id)
  {
    if steps != [] {
      QuietRun(s, steps[..|steps| - 1], id);
      FromKeeps(s, steps[..|steps| - 1]);
      QuietStep(From(s, steps[..|steps| - 1]), steps[|steps| - 1], id);
    }
  }

  // Anything else that is under way can still move the deposit.

  ghost predicate Leaves(s: System, id: nat) { exists steps :: !Archived(From(s, steps), id) }

  lemma LeavesNext(start: System, s: System, step: Step, id: nat)
    requires RunsTo(start, s) && !Archived(Apply(s, step), id)
    ensures Leaves(start, id)
  {
    var t := Follow(start, s, step);
    var steps :| Leads(Apply, AnyStep, start, t, steps);
    assert !Archived(From(start, steps), id);
  }

  const GLIMPSE := [Observation("", 0, false, None, None)]

  lemma GlimpseCounts(seen: Deposit)
    ensures ValidOnes(seen, GLIMPSE) != []
  {
    var o := Observation("", 0, false, None, None);
    assert Valid(seen, o) && o in GLIMPSE;
    assert o in ValidOnes(seen, GLIMPSE);
  }

  /** Whatever the watcher has found, it writes one of its three states. */
  lemma FindingMoves(d: Deposit, h: History, seen: Deposit, valid: seq<Observation>, tip: nat)
    requires valid != []
    ensures WatchMove(d, h, seen, valid, tip).0.state in {PartialPaymentReceived, DepositState.Confirming, Minting}
  {
    var f := Classify(seen, valid, tip);
    assert WatchMove(d, h, seen, valid, tip).0 == ChainUpdated(d, f);
  }

  lemma WatcherMoves(start: System, s: System, id: nat)
    requires RunsTo(start, s) && Inv(s) && Archived(s, id) && AroundOf(s, id).watched.Some?
    ensures Leaves(start, id)
  {
    assert Good(s.rows[id], s.history[id], AroundOf(s, id), s.maxAttempts);
    GlimpseCounts(s.watched[id]);
    FindingMoves(s.rows[id], s.history[id], s.watched[id], ValidOnes(s.watched[id], GLIMPSE), 0);
    assert Apply(s, WatchWrite(id, GLIMPSE, 0)) == WatchWritten(s, id, GLIMPSE, 0);
    LeavesNext(start, s, WatchWrite(id, GLIMPSE, 0), id);
  }

  lemma AnswerMoves(start: System, s: System, id: nat)
    requires RunsTo(start, s) && Inv(s) && Archived(s, id) && AroundOf(s, id).answer.Some?
    ensures Leaves(start, id)
  {
    assert Good(s.rows[id], s.history[id], AroundOf(s, id), s.maxAttempts);
    assert Apply(s, RecordMint) == MintRecorded(s);
    LeavesNext(start, s, RecordMint, id);
  }

  lemma DeliveryMoves(start: System, s: System, id: nat)
    requires RunsTo(start, s) && Inv(s) && Archived(s, id) && AroundOf(s, id).toDeliver.Some?
    ensures Leaves(start, id)
  {
    assert Good(s.rows[id], s.history[id], AroundOf(s, id), s.maxAttempts);
    assert Apply(s, Deliver(id)) == Delivered(s, id);
    LeavesNext(start, s, Deliver(id), id);
  }

  /** A deposit waiting in the worker's queue is minted once the worker is free for it. */
  lemma QueueMoves(start: System, s: System, id: nat)
    requires RunsTo(start, s) && Inv(s) && Archived(s, id) && s.task.MintQueue? && id in s.task.queue
    ensures Leaves(start, id)
  {
    var step := CallMint(id, Refused("refused"));
    assert Apply(s, step) == MintCalled(s, id, Refused("refused"));
    StepKeeps(s, step);
    var t := Follow(start, s, step);
    AnswerMoves(start, Apply(s, step), id);
  }

  /** The worker first records the answer it holds, once the row of that answer is unlocked. */
  lemma RecordFirst(start: System, s: System, id: nat)
    requires RunsTo(start, s) && Inv(s) && Archived(s, id) && s.task.Replied? && s.task.id != id && id in s.task.queue
    requires s.task.id !in s.locks
    ensures Leaves(start, id)
  {
    assert s.task.id < |s.rows| by { assert AroundOf(s, s.task.id).answer.Some?; }
    assert Apply(s, RecordMint) == MintRecorded(s);
    StepKeeps(s, RecordMint);
    var t := Follow(start, s, RecordMint);
    QueueMoves(start, Apply(s, RecordMint), id);
  }

  lemma WorkerMoves(start: System, s: System, id: nat)
    requires RunsTo(start, s) && Inv(s) && Archived(s, id) && AroundOf(s, id).toMint.Some?
    ensures Leaves(start, id)
  {
    if s.task.MintQueue? {
      QueueMoves(start, s, id);
    } else if s.task.id == id {
      AnswerMoves(start, s, id);
    } else {
      var step := PickupAbort(s.task.id);
      StepKeeps(s, step);
      var t := Follow(start, s, step);
      RecordFirst(start, Apply(s, step), id);
    }
  }

  lemma OperatorMoves(start: System, s: System, op: nat, id: nat)
    requires RunsTo(start, s) && Inv(s) && Archived(s, id)
    requires op in s.operations && s.operations[op].id == id && !s.operations[op].action.Archive?
    ensures Leaves(start, id)
  {
    assert Good(s.rows[id], s.history[id], AroundOf(s, id), s.maxAttempts);
    assert Apply(s, OperatorWrite(op)) == OperatorWritten(s, op);
    LeavesNext(start, s, OperatorWrite(op), id);
  }

  lemma Disturbed(s: System, id: nat)
    requires Inv(s) && Archived(s, id) && !Quiet(s, id)
    ensures Leaves(s, id)
  {
    ReachesSelf(Apply, AnyStep, s);
    var a := AroundOf(s, id);
    if a.watched.Some? {
      WatcherMoves(s, s, id);
    } else if a.toMint.Some? {
      WorkerMoves(s, s, id);
    } else if a.answer.Some? {
      AnswerMoves(s, s, id);
    } else if a.toDeliver.Some? {
      DeliveryMoves(s, s, id);
    } else {
      var op :| op in s.operations && s.operations[op].id == id && !s.operations[op].action.Archive?;
      OperatorMoves(s, s, op, id);
    }
  }

  lemma Undisturbed(s: System, id: nat)
    requires Inv(s) && Archived(s, id) && Quiet(s, id)
    ensures !Leaves(s, id)
  {
    forall steps ensures Archived(From(s, steps), id) { QuietRun(s, steps, id); }
  }

  /** Some continuation takes an archived deposit out of the archive exactly when a watcher entry, a worker entry or a
      pending operation on it is left from before. */
  lemma ArchivedLeavesExactly(s: System, id: nat)
    requires Inv(s) && Archived(s, id)
    ensures Leaves(s, id) <==> !Quiet(s, id)
  {
    if Quiet(s, id) { Undisturbed(s, id); } else { Disturbed(s, id); }
  }

  // A run that revives an archived deposit.

  const FAIL := MarkFailed("operator")
  const FAILED := Written(FRESH, FAIL)
  const SHELVED := Written(FAILED, Archive)
  const EMPTY := History(7, None, 0, [], [])

  const SEEN_PENDING := [Create(7, 1, 0, "secret"), WatchRead]
  const GIVEN_UP := SEEN_PENDING + [OperatorRead(0, 0, FAIL), OperatorWrite(0)]
  const SHELVED_RUN := GIVEN_UP + [OperatorRead(0, 0, Archive), OperatorWrite(0)]

  lemma WatcherReads()
    ensures Run(1, SEEN_PENDING) == BEGIN.(rows := [FRESH], watched := map[0 := FRESH], history := [EMPTY])
  {
    assert [] + [Create(7, 1, 0, "secret")] + [WatchRead] == SEEN_PENDING;
    FoldExtends(Apply, BEGIN, [], Create(7, 1, 0, "secret"));
    FoldExtends(Apply, BEGIN, [] + [Create(7, 1, 0, "secret")], WatchRead);
    assert BEGIN.rows + [FRESH] == [FRESH] && BEGIN.history + [EMPTY] == [EMPTY];
    ReadOne(FRESH, OPEN_STATES);
  }

  lemma Operated(steps: seq<Step>, d: Deposit, action: Action)
    requires Run(1, steps) == BEGIN.(rows := [d], watched := map[0 := FRESH], history := [EMPTY])
        && Permitted(d, action)
    ensures Run(1, steps + [OperatorRead(0, 0, action), OperatorWrite(0)])
         == BEGIN.(rows := [Written(d, action)], watched := map[0 := FRESH], history := [EMPTY])
  {
    FoldExtends(Apply, BEGIN, steps, OperatorRead(0, 0, action));
    FoldExtends(Apply, BEGIN, steps + [OperatorRead(0, 0, action)], OperatorWrite(0));
    assert steps + [OperatorRead(0, 0, action)] + [OperatorWrite(0)]
        == steps + [OperatorRead(0, 0, action), OperatorWrite(0)];
    var s := Run(1, steps + [OperatorRead(0, 0, action)]);
    assert s.operations == map[0 := Operation(0, action)];
    assert Apply(s, OperatorWrite(0)) == OperatorWritten(s, 0);
    assert s.operations - {0} == map[];
    assert s.rows[0 := Written(d, action)] == [Written(d, action)] && s.history[0 := EMPTY] == [EMPTY];
  }

  /** The watcher has read the deposit before it is failed and archived; its write then starts the minting. */
  lemma ArchivedIsRevived()
    ensures Archived(Run(1, SHELVED_RUN), 0)
    ensures var s := Run(1, SHELVED_RUN + [WatchWrite(0, SEEN, 100)]); |s.rows| == 1 && s.rows[0].state == Minting
  {
    WatcherReads();
    Operated(SEEN_PENDING, FRESH, FAIL);
    Operated(GIVEN_UP, FAILED, Archive);
    FoldExtends(Apply, BEGIN, SHELVED_RUN, WatchWrite(0, SEEN, 100));
    FoundByWatcher();
    var s := Run(1, SHELVED_RUN);
    assert Apply(s, WatchWrite(0, SEEN, 100)) == WatchWritten(s, 0, SEEN, 100);
  }
}

/** The tasks that share the deposit rows, with every read and every write as a step of its own. */
module DepositProtocol {
  import opened Prelude
  import opened Deposits
  import opened Confirmations
  import opened DepositWorker

  type Snapshot = map<nat, Deposit>

  /** The single worker. Entries leave its snapshot when it starts to work on them. */
  datatype Task =
    | Idle
    | MintQueue(queue: Snapshot)
    | Replied(id: nat, seen: Deposit, reply: MintReply, queue: Snapshot)  // the mint has answered, nothing recorded yet
    | DeliveryQueue(queue: Snapshot)

  datatype Operation = Operation(id: nat, action: Action)

  datatype Mint = Mint(token: string, amount: nat)

  /** What happened to one deposit: the covering sum that started its minting, the mint calls, the successful ones,
      and the tokens served to pickups. */
  datatype History = History(requested: nat, covering: Option<nat>, calls: nat, mints: seq<Mint>, served: seq<string>)

  /** `locks` holds the pickup transactions between SELECT ... FOR UPDATE and commit, with the token they read. */
  datatype System = System(
    rows: seq<Deposit>,
    claims: map<nat, string>,
    locks: map<nat, string>,
    watched: Snapshot,
    task: Task,
    operations: map<nat, Operation>,
    history: seq<History>,
    maxAttempts: nat)

  datatype Step =
    | Create(amount: nat, target: nat, created: int, secret: string)
    | WatchRead
    | WatchWrite(id: nat, obs: seq<Observation>, tip: nat)
    | ExpireRow(id: nat, cutoff: int)
    | MintRead
    | CallMint(id: nat, reply: MintReply)
    | RecordMint
    | DeliveryRead
    | Deliver(id: nat)
    | EndTick
    | OperatorRead(op: nat, id: nat, action: Action)
    | OperatorWrite(op: nat)
    | PickupRead(id: nat, presented: PickupToken)
    | PickupCommit(id: nat)
    | PickupAbort(id: nat)

  function StateOf(d: Deposit): DepositState { d.state }

  const OPEN_STATES := {Pending, PartialPaymentReceived, DepositState.Confirming}

  /** A row that no pickup transaction holds. */
  predicate Free(s: System, id: nat) { id < |s.rows| && id < |s.history| && id !in s.locks }

  function Put(s: System, id: nat, d: Deposit, h: History): System
    requires id < |s.rows| && id < |s.history|
  {
    s.(rows := s.rows[id := d], history := s.history[id := h])
  }

  /** The watcher classifies the row as it was read and writes the row as it is. */
  function WatchMove(d: Deposit, h: History, seen: Deposit, valid: seq<Observation>, tip: nat): (Deposit, History) {
    if valid == [] then (d, h) else
      var f := Classify(seen, valid, tip);
      (ChainUpdated(d, f), if f.next == Minting then h.(covering := Some(f.covering)) else h)
  }

  function WatchWritten(s: System, id: nat, obs: seq<Observation>, tip: nat): System {
    if id !in s.watched || !Free(s, id) then s else
      var (d, h) := WatchMove(s.rows[id], s.history[id], s.watched[id], ValidOnes(s.watched[id], obs), tip);
      Put(s.(watched := s.watched - {id}), id, d, h)
  }

  function MintCalled(s: System, id: nat, reply: MintReply): System {
    if !s.task.MintQueue? || id !in s.task.queue || id >= |s.rows| || id >= |s.history| then s else
      var seen := s.task.queue[id];
      var h := s.history[id].(calls := s.history[id].calls + 1);
      var t := s.(task := Replied(id, seen, reply, s.task.queue - {id}));
      Put(t, id, s.rows[id],
          match reply case Minted(token) => h.(mints := h.mints + [Mint(token, seen.amount)]) case Refused(_) => h)
  }

  function MintRecorded(s: System): System {
    if !s.task.Replied? || !Free(s, s.task.id) then s else
      var Replied(id, seen, reply, queue) := s.task;
      Put(s.(task := MintQueue(queue)), id, AfterMint(s.rows[id], seen, reply, s.maxAttempts), s.history[id])
  }

  function Delivered(s: System, id: nat): System {
    if !s.task.DeliveryQueue? || id !in s.task.queue || !Free(s, id) then s else
      Put(s.(task := DeliveryQueue(s.task.queue - {id})), id,
          AfterDelivery(s.rows[id], s.task.queue[id], s.maxAttempts), s.history[id])
  }

  function OperatorWritten(s: System, op: nat): System {
    if op !in s.operations || !Free(s, s.operations[op].id) then s else
      var Operation(id, action) := s.operations[op];
      Put(s.(operations := s.operations - {op}), id, Written(s.rows[id], action), s.history[id])
  }

  /** The end of a pickup transaction: the claim row decides, then the token is served. */
  function PickedUp(s: System, id: nat): System {
    if id !in s.locks || id >= |s.rows| || id >= |s.history| then s
    else if id in s.claims then s.(locks := s.locks - {id})
    else
      var token, h := s.locks[id], s.history[id];
      Put(s.(locks := s.locks - {id}, claims := s.claims[id := token]), id, Claimed(s.rows[id]),
          h.(served := h.served + [token]))
  }

  /** One step; a step that is not enabled changes nothing. */
  function Apply(s: System, step: Step): System {
    match step
    case Create(amount, target, created, secret) =>
      s.(rows := s.rows + [NewDeposit(amount, target, created, secret)],
         history := s.history + [History(amount, None, 0, [], [])])
    case WatchRead => s.(watched := ReadRows(StateOf, s.rows, OPEN_STATES))
    case WatchWrite(id, obs, tip) => WatchWritten(s, id, obs, tip)
    case ExpireRow(id, cutoff) =>
      if Free(s, id) && Expirable(s.rows[id], cutoff) then Put(s, id, Expired(s.rows[id]), s.history[id]) else s
    case MintRead => if s.task.Idle? then s.(task := MintQueue(ReadRows(StateOf, s.rows, {Minting}))) else s
    case CallMint(id, reply) => MintCalled(s, id, reply)
    case RecordMint => MintRecorded(s)
    case DeliveryRead =>
      if s.task.MintQueue? then s.(task := DeliveryQueue(ReadRows(StateOf, s.rows, {Delivering}))) else s
    case Deliver(id) => Delivered(s, id)
    case EndTick => if s.task.MintQueue? || s.task.DeliveryQueue? then s.(task := Idle) else s
    case OperatorRead(op, id, action) =>
      if op !in s.operations && id < |s.rows| && Permitted(s.rows[id], action)
      then s.(operations := s.operations[op := Operation(id, action)]) else s
    case OperatorWrite(op) => OperatorWritten(s, op)
    case PickupRead(id, presented) =>
      if Free(s, id) && Claimable(s.rows[id], presented)
      then s.(locks := s.locks[id := s.rows[id].mintedToken.value]) else s
    case PickupCommit(id) => PickedUp(s, id)
    case PickupAbort(id) => s.(locks := s.locks - {id})
  }

  function From(s: System, steps: seq<Step>): System { Fold(Apply, s, steps) }

  function Run(maxAttempts: nat, steps: seq<Step>): System {
    From(System([], map[], map[], map[], Idle, map[], [], maxAttempts), steps)
  }

  // The invariant of one deposit.

  datatype Answer = Answer(seen: Deposit, reply: MintReply)

  /** Everything outside a row that concerns it: what the tasks have read of it, an unrecorded answer of the mint, and
      the state of its pickup. */
  datatype Around = Around(
    watched: Option<Deposit>, toMint: Option<Deposit>, answer: Option<Answer>, toDeliver: Option<Deposit>,
    lock: Option<string>, claimed: bool)

  function Entry<T>(m: map<nat, T>, id: nat): Option<T> { if id in m then Some(m[id]) else None }

  function AroundOf(s: System, id: nat): Around {
    Around(Entry(s.watched, id),
           if s.task.MintQueue? || s.task.Replied? then Entry(s.task.queue, id) else None,
           if s.task.Replied? && s.task.id == id then Some(Answer(s.task.seen, s.task.reply)) else None,
           if s.task.DeliveryQueue? then Entry(s.task.queue, id) else None,
           Entry(s.locks, id), id in s.claims)
  }

  /** Before the watcher has found the payment covered. */
  predicate Uncovered(d: Deposit, h: History, a: Around) {
    && h.mints == [] && d.mintAttempts == 0 && d.amount == h.requested && d.mintedToken.None?
    && d.state != Minting && d.state != Delivering && d.state != Ready
    && a.toMint.None? && a.answer.None? && a.toDeliver.None?
    && (a.watched.Some? ==> a.watched.value.amount == h.requested)
  }

  /** Covered, and nothing minted so far. */
  predicate Unminted(d: Deposit, a: Around, maxAttempts: nat) {
    && d.mintedToken.None? && !Open(d) && d.state != Delivering && d.state != Ready
    && a.watched.None? && a.toDeliver.None?
    && (d.state == Minting || a.toMint.Some? || a.answer.Some? ==> d.mintAttempts < maxAttempts)
    && (a.toMint.Some? ==>
          a.answer.None? && a.toMint.value.amount == d.amount && a.toMint.value.mintAttempts == d.mintAttempts)
    && (a.answer.Some? ==> a.answer.value.reply.Refused? && a.answer.value.seen.mintAttempts == d.mintAttempts)
  }

  /** The mint has handed out a token that is not recorded yet. */
  predicate Unrecorded(d: Deposit, h: History, a: Around, m: Mint) {
    && d.mintedToken.None? && h.served == [] && !Open(d) && d.state != Delivering && d.state != Ready
    && a.watched.None? && a.toMint.None? && a.toDeliver.None?
    && a.answer.Some? && a.answer.value.reply == Minted(m.token) && a.answer.value.seen.amount == m.amount
  }

  /** The token is recorded, and perhaps already served. */
  predicate Recorded(d: Deposit, h: History, a: Around, m: Mint) {
    && !Open(d) && d.state != Minting && d.mintedAmount == Some(d.amount)
    && a.watched.None? && a.toMint.None? && a.answer.None?
    && (a.toDeliver.Some? ==> a.toDeliver.value.mintedToken.Some? && d.state != Ready)
    && d.mintedToken == (if h.served == [] then Some(m.token) else None)
    && (h.served != [] ==> h.served == [m.token] && d.state != Delivering && d.state != Ready && a.toDeliver.None?)
  }

  predicate Good(d: Deposit, h: History, a: Around, maxAttempts: nat) {
    && h.calls == d.mintAttempts + (if a.answer.Some? then 1 else 0) <= maxAttempts
    && (if h.covering.None? then Uncovered(d, h, a)
        else
          && h.requested <= h.covering.value <= d.received && d.amount == h.covering.value
          && |h.mints| <= 1
          && if h.mints == [] then Unminted(d, a, maxAttempts)
             else
               && h.mints[0].amount == d.amount
               && (Unrecorded(d, h, a, h.mints[0]) || Recorded(d, h, a, h.mints[0])))
    && (h.mints == [] ==> h.served == [])
    && (a.claimed <==> h.served != [])
    && (a.lock.Some? ==> d.state == Ready && d.mintedToken == a.lock)
  }

  ghost predicate Bounded(s: System) {
    && |s.history| == |s.rows|
    && (forall id: nat :: id >= |s.rows| ==> AroundOf(s, id) == Around(None, None, None, None, None, false))
  }

  ghost predicate Inv(s: System) {
    && Bounded(s) && s.maxAttempts > 0
    && forall id :: 0 <= id < |s.rows| ==> Good(s.rows[id], s.history[id], AroundOf(s, id), s.maxAttempts)
  }

  /** A step that concerns one deposit. */
  lemma OneDeposit(s: System, t: System, id: nat)
    requires Inv(s) && id < |s.rows| && t.maxAttempts == s.maxAttempts
    requires |t.rows| == |s.rows| && |t.history| == |t.rows|
    requires t.rows == s.rows[id := t.rows[id]] && t.history == s.history[id := t.history[id]]
    requires forall j: nat :: j != id ==> AroundOf(t, j) == AroundOf(s, j)
    requires Good(t.rows[id], t.history[id], AroundOf(t, id), s.maxAttempts)
    ensures Inv(t)
  {
    forall j | 0 <= j < |t.rows| ensures Good(t.rows[j], t.history[j], AroundOf(t, j), t.maxAttempts) {
      if j != id { assert t.rows[j] == s.rows[j] && t.history[j] == s.history[j]; }
    }
  }

  lemma CreateKeeps(s: System, step: Step)
    requires Inv(s) && step.Create?
    ensures Inv(Apply(s, step))
  {
    var t := Apply(s, step);
    assert forall j: nat :: AroundOf(t, j) == AroundOf(s, j);
    forall j | 0 <= j < |t.rows| ensures Good(t.rows[j], t.history[j], AroundOf(t, j), t.maxAttempts) {
      if j < |s.rows| { assert t.rows[j] == s.rows[j] && t.history[j] == s.history[j]; }
    }
  }

  /** The covering sum of a payment found covered is at least what was asked for and at most what was received. */
  lemma WatchMoveKeeps(d: Deposit, h: History, a: Around, valid: seq<Observation>, tip: nat, maxAttempts: nat)
    requires maxAttempts > 0 && Good(d, h, a, maxAttempts) && a.watched.Some? && a.lock.None?
    ensures var (next, noted) := WatchMove(d, h, a.watched.value, valid, tip);
            Good(next, noted, a.(watched := None), maxAttempts)
  {
    if valid != [] { MintingExactly(a.watched.value, valid, tip); }
  }

  lemma WatchKeeps(s: System, id: nat, obs: seq<Observation>, tip: nat)
    requires Inv(s)
    ensures Inv(WatchWritten(s, id, obs, tip))
  {
    if id in s.watched && Free(s, id) {
      WatchMoveKeeps(s.rows[id], s.history[id], AroundOf(s, id), ValidOnes(s.watched[id], obs), tip, s.maxAttempts);
      OneDeposit(s, WatchWritten(s, id, obs, tip), id);
    }
  }

  lemma ExpireKeeps(s: System, id: nat, cutoff: int)
    requires Inv(s) && Free(s, id) && Expirable(s.rows[id], cutoff)
    ensures Inv(Put(s, id, Expired(s.rows[id]), s.history[id]))
  {
    OneDeposit(s, Put(s, id, Expired(s.rows[id]), s.history[id]), id);
  }

  lemma CallKeeps(s: System, id: nat, reply: MintReply)
    requires Inv(s)
    ensures Inv(MintCalled(s, id, reply))
  {
    if s.task.MintQueue? && id in s.task.queue && id < |s.rows| {
      assert Good(s.rows[id], s.history[id], AroundOf(s, id), s.maxAttempts);
      OneDeposit(s, MintCalled(s, id, reply), id);
    }
  }

  lemma RecordKeeps(s: System)
    requires Inv(s)
    ensures Inv(MintRecorded(s))
  {
    if s.task.Replied? && Free(s, s.task.id) {
      assert Good(s.rows[s.task.id], s.history[s.task.id], AroundOf(s, s.task.id), s.maxAttempts);
      OneDeposit(s, MintRecorded(s), s.task.id);
    }
  }

  lemma DeliverKeeps(s: System, id: nat)
    requires Inv(s)
    ensures Inv(Delivered(s, id))
  {
    if s.task.DeliveryQueue? && id in s.task.queue && Free(s, id) {
      assert Good(s.rows[id], s.history[id], AroundOf(s, id), s.maxAttempts);
      OneDeposit(s, Delivered(s, id), id);
    }
  }

  lemma OperatorKeeps(s: System, op: nat)
    requires Inv(s)
    ensures Inv(OperatorWritten(s, op))
  {
    if op in s.operations && Free(s, s.operations[op].id) {
      var id := s.operations[op].id;
      assert Good(s.rows[id], s.history[id], AroundOf(s, id), s.maxAttempts);
      OneDeposit(s, OperatorWritten(s, op), id);
    }
  }

  lemma PickupKeeps(s: System, id: nat)
    requires Inv(s)
    ensures Inv(PickedUp(s, id))
  {
    if id in s.locks {
      assert AroundOf(s, id).lock.Some?;
      assert Good(s.rows[id], s.history[id], AroundOf(s, id), s.maxAttempts);
      OneDeposit(s, PickedUp(s, id), id);
    }
  }

  /** Reading a snapshot, opening and aborting a pickup transaction: no row is written. */
  lemma ReadKeeps(s: System, t: System)
    requires Inv(s) && t.rows == s.rows && t.history == s.history && t.maxAttempts == s.maxAttempts
    requires forall j: nat :: j >= |s.rows| ==> AroundOf(t, j) == AroundOf(s, j)
    requires forall j :: 0 <= j < |s.rows| ==> Good(s.rows[j], s.history[j], AroundOf(t, j), s.maxAttempts)
    ensures Inv(t)
  {
  }

  lemma WatchReadKeeps(s: System)
    requires Inv(s)
    ensures Inv(Apply(s, WatchRead))
  {
    var t := Apply(s, WatchRead);
    forall j: nat | j >= |s.rows| ensures AroundOf(t, j) == AroundOf(s, j) {
      assert AroundOf(s, j) == Around(None, None, None, None, None, false);
    }
    forall j | 0 <= j < |s.rows| ensures Good(s.rows[j], s.history[j], AroundOf(t, j), s.maxAttempts) {
      assert Good(s.rows[j], s.history[j], AroundOf(s, j), s.maxAttempts);
      var watched := if s.rows[j].state in OPEN_STATES then Some(s.rows[j]) else None;
      assert AroundOf(t, j) == AroundOf(s, j).(watched := watched);
    }
    ReadKeeps(s, t);
  }

  lemma WorkerReadKeeps(s: System, step: Step)
    requires Inv(s)
    requires step.MintRead? || step.DeliveryRead? || step.EndTick?
    ensures Inv(Apply(s, step))
  {
    var t := Apply(s, step);
    if t != s {
      forall j: nat | j >= |s.rows| ensures AroundOf(t, j) == AroundOf(s, j) {
        assert AroundOf(s, j) == Around(None, None, None, None, None, false);
      }
      forall j | 0 <= j < |s.rows| ensures Good(s.rows[j], s.history[j], AroundOf(t, j), s.maxAttempts) {
        var a := AroundOf(s, j);
        assert Good(s.rows[j], s.history[j], a, s.maxAttempts) && a.answer.None?;
        var toMint := if step.MintRead? && s.rows[j].state == Minting then Some(s.rows[j]) else None;
        var toDeliver := if step.DeliveryRead? && s.rows[j].state == Delivering then Some(s.rows[j]) else None;
        assert AroundOf(t, j) == a.(toMint := toMint, toDeliver := toDeliver);
      }
      ReadKeeps(s, t);
    }
  }

  lemma LockKeeps(s: System, t: System, id: nat)
    requires Inv(s)
    requires t.rows == s.rows && t.history == s.history && t.maxAttempts == s.maxAttempts && t.claims == s.claims
    requires t.watched == s.watched && t.task == s.task
    requires t.locks == s.locks - {id}
             || (Free(s, id) && s.rows[id].state == Ready && s.rows[id].mintedToken.Some?
                 && t.locks == s.locks[id := s.rows[id].mintedToken.value])
    ensures Inv(t)
  {
    forall j: nat | j != id ensures AroundOf(t, j) == AroundOf(s, j) {}
    if id < |s.rows| {
      assert Good(s.rows[id], s.history[id], AroundOf(s, id), s.maxAttempts);
      OneDeposit(s, t, id);
    } else {
      assert AroundOf(s, id).lock.None?;
      assert AroundOf(t, id) == AroundOf(s, id);
      ReadKeeps(s, t);
    }
  }

  lemma StepKeeps(s: System, step: Step)
    requires Inv(s)
    ensures Inv(Apply(s, step)) && Apply(s, step).maxAttempts == s.maxAttempts
  {
    match step
    case Create(_, _, _, _) => CreateKeeps(s, step);
    case WatchWrite(id, obs, tip) => WatchKeeps(s, id, obs, tip);
    case ExpireRow(id, cutoff) => if Free(s, id) && Expirable(s.rows[id], cutoff) { ExpireKeeps(s, id, cutoff); }
    case CallMint(id, reply) => CallKeeps(s, id, reply);
    case RecordMint => RecordKeeps(s);
    case Deliver(id) => DeliverKeeps(s, id);
    case OperatorWrite(op) => OperatorKeeps(s, op);
    case PickupCommit(id) => PickupKeeps(s, id);
    case OperatorRead(_, _, _) => ReadKeeps(s, Apply(s, step));
    case WatchRead => WatchReadKeeps(s);
    case PickupRead(id, presented) =>
      if Free(s, id) && Claimable(s.rows[id], presented) { LockKeeps(s, Apply(s, step), id); }
    case PickupAbort(id) => LockKeeps(s, Apply(s, step), id);
    case _ => WorkerReadKeeps(s, step);
  }

  lemma FromKeeps(s: System, steps: seq<Step>)
    requires Inv(s)
    ensures Inv(From(s, steps)) && From(s, steps).maxAttempts == s.maxAttempts
  {
    var inv := (x: System) => Inv(x) && x.maxAttempts == s.maxAttempts;
    forall x, step | inv(x) ensures inv(Apply(x, step)) { StepKeeps(x, step); }
    FoldKeeps(inv, Apply, s, steps);
  }

  lemma RunKeeps(maxAttempts: nat, steps: seq<Step>)
    requires maxAttempts > 0
    ensures Inv(Run(maxAttempts, steps)) && Run(maxAttempts, steps).maxAttempts == maxAttempts
  {
    FromKeeps(System([], map[], map[], map[], Idle, map[], [], maxAttempts), steps);
  }

  /** In every interleaving a deposit is minted at most once, with at most `maxAttempts` calls, and served at most
      once. What is served is the token of that mint; it is worth the covering sum found by the watcher, which is at
      least what was asked for and at most what was received. */
  lemma ExactlyOnce(maxAttempts: nat, steps: seq<Step>, id: nat)
    requires maxAttempts > 0 && id < |Run(maxAttempts, steps).rows|
    ensures |Run(maxAttempts, steps).history| == |Run(maxAttempts, steps).rows|
    ensures var d, h := Run(maxAttempts, steps).rows[id], Run(maxAttempts, steps).history[id];
            && |h.mints| <= 1 && |h.served| <= 1 && h.calls <= maxAttempts
            && (h.mints != [] ==>
                  h.covering == Some(h.mints[0].amount) && h.requested <= h.mints[0].amount <= d.received)
            && (h.served != [] ==> h.mints != [] && h.served[0] == h.mints[0].token && d.mintedToken.None?)
  {
    RunKeeps(maxAttempts, steps);
    assert Good(Run(maxAttempts, steps).rows[id], Run(maxAttempts, steps).history[id],
                AroundOf(Run(maxAttempts, steps), id), maxAttempts);
  }

  /** However old the read is that a refusal is decided on, recording it fails the deposit exactly when that was the
      last attempt, and otherwise leaves it to the next tick; recording a token makes it delivering. */
  lemma RecordedExactly(s: System)
    requires s.task.Replied? && Free(s, s.task.id)
    ensures var t, id := MintRecorded(s), s.task.id;
            && |t.rows| == |s.rows| && t.task == MintQueue(s.task.queue)
            && t.rows[id].mintAttempts == s.rows[id].mintAttempts + 1
            && (s.task.reply.Refused? ==>
                  && (t.rows[id].state == Failed <==> s.maxAttempts <= s.task.seen.mintAttempts + 1)
                  && (t.rows[id].state == Minting <==> s.task.seen.mintAttempts + 1 < s.maxAttempts))
            && (s.task.reply.Minted? ==>
                  t.rows[id].state == Delivering && t.rows[id].mintedToken == Some(s.task.reply.token)
                  && t.rows[id].mintedAmount == Some(s.task.seen.amount))
  {
  }

  /** In every interleaving a delivering or ready deposit has its token, and so has every one that the worker has read
      for delivery: the branch that returns a deposit to minting is never taken, however old that read is. */
  lemma ReturnToMintingIsDead(maxAttempts: nat, steps: seq<Step>, id: nat)
    requires maxAttempts > 0 && id < |Run(maxAttempts, steps).rows|
    ensures var s := Run(maxAttempts, steps);
            && (s.rows[id].state == Delivering || s.rows[id].state == Ready ==> s.rows[id].mintedToken.Some?)
            && (s.task.DeliveryQueue? && id in s.task.queue ==>
                  AfterDelivery(s.rows[id], s.task.queue[id], maxAttempts).state == Ready)
  {
    RunKeeps(maxAttempts, steps);
    var s := Run(maxAttempts, steps);
    assert Good(s.rows[id], s.history[id], AroundOf(s, id), maxAttempts);
  }

  // The bounds are reached: there is a run in which a paid deposit is minted and served.

  predicate AnyStep(step: Step) { true }

  ghost predicate RunsTo(start: System, s: System) { Reaches(Apply, AnyStep, start, s) }

  lemma Follow(start: System, s: System, step: Step) returns (t: System)
    requires RunsTo(start, s)
    ensures t == Apply(s, step) && RunsTo(start, t)
  {
    ReachesNext(Apply, AnyStep, start, s, step);
    t := Apply(s, step);
  }

  const BEGIN := System([], map[], map[], map[], Idle, map[], [], 1)
  const FRESH := NewDeposit(7, 1, 0, "secret")
  const SEEN := [Observation("txid", 9, true, Some(100), None)]
  const FOUND := Finding(Minting, "txid", 9, 9, 1)

  lemma ReadOne(d: Deposit, states: set<DepositState>)
    requires d.state in states
    ensures ReadRows(StateOf, [d], states) == map[0 := d]
  {
  }

  lemma FoundByWatcher()
    ensures ValidOnes(FRESH, SEEN) == SEEN && Classify(FRESH, SEEN, 100) == FOUND
  {
    assert SEEN[..0] == [];
    SumOfTwo(ReceivedOf, SEEN[0], SEEN[0]);
    SumOfTwo(CoveringOf(FRESH, 100), SEEN[0], SEEN[0]);
  }

  lemma WatchedIsReachable() returns (s: System)
    ensures RunsTo(BEGIN, s)
    ensures s == BEGIN.(rows := [FRESH], watched := map[0 := FRESH], history := [History(7, None, 0, [], [])])
  {
    ReachesSelf(Apply, AnyStep, BEGIN);
    var a := Follow(BEGIN, BEGIN, Create(7, 1, 0, "secret"));
    assert a == BEGIN.(rows := [FRESH], history := [History(7, None, 0, [], [])]);
    s := Follow(BEGIN, a, WatchRead);
    ReadOne(FRESH, OPEN_STATES);
  }

  lemma CoveredIsReachable() returns (s: System)
    ensures RunsTo(BEGIN, s)
    ensures s == BEGIN.(rows := [ChainUpdated(FRESH, FOUND)], history := [History(7, Some(9), 0, [], [])])
  {
    var a := WatchedIsReachable();
    s := Follow(BEGIN, a, WatchWrite(0, SEEN, 100));
    FoundByWatcher();
    assert s == WatchWritten(a, 0, SEEN, 100);
    assert s.watched == map[];
  }

  lemma QueuedIsReachable() returns (s: System)
    ensures RunsTo(BEGIN, s)
    ensures s == BEGIN.(task := MintQueue(map[0 := ChainUpdated(FRESH, FOUND)]), rows := [ChainUpdated(FRESH, FOUND)],
                        history := [History(7, Some(9), 0, [], [])])
  {
    var a := CoveredIsReachable();
    s := Follow(BEGIN, a, MintRead);
    ReadOne(a.rows[0], {Minting});
  }

  lemma CallOne(s: System, d: Deposit, h: History)
    requires s == BEGIN.(task := MintQueue(map[0 := d]), rows := [d], history := [h])
    ensures MintCalled(s, 0, Minted("token"))
         == BEGIN.(task := Replied(0, d, Minted("token"), map[]), rows := [d],
                   history := [h.(calls := h.calls + 1, mints := h.mints + [Mint("token", d.amount)])])
  {
    assert s.task.queue - {0} == map[];
  }

  lemma CalledIsReachable() returns (s: System)
    ensures RunsTo(BEGIN, s)
    ensures s == BEGIN.(task := Replied(0, ChainUpdated(FRESH, FOUND), Minted("token"), map[]),
                        rows := [ChainUpdated(FRESH, FOUND)],
                        history := [History(7, Some(9), 1, [Mint("token", 9)], [])])
  {
    var a := QueuedIsReachable();
    s := Follow(BEGIN, a, CallMint(0, Minted("token")));
    CallOne(a, a.rows[0], a.history[0]);
    assert [] + [Mint("token", 9)] == [Mint("token", 9)];
  }

  lemma MintedIsReachable() returns (s: System)
    ensures RunsTo(BEGIN, s) && s.task == MintQueue(map[])
    ensures s == BEGIN.(task := s.task, rows := [MintSucceeded(ChainUpdated(FRESH, FOUND), "token", 9)],
                        history := [History(7, Some(9), 1, [Mint("token", 9)], [])])
  {
    var a := CalledIsReachable();
    s := Follow(BEGIN, a, RecordMint);
    assert s == MintRecorded(a);
  }

  lemma ReadyIsReachable() returns (s: System)
    ensures RunsTo(BEGIN, s) && s.task == DeliveryQueue(map[])
    ensures s == BEGIN.(task := s.task,
                        rows := [DeliverySucceeded(MintSucceeded(ChainUpdated(FRESH, FOUND), "token", 9))],
                        history := [History(7, Some(9), 1, [Mint("token", 9)], [])])
  {
    var a := MintedIsReachable();
    var b := Follow(BEGIN, a, DeliveryRead);
    ReadOne(a.rows[0], {Delivering});
    assert b == a.(task := DeliveryQueue(map[0 := a.rows[0]]));
    s := Follow(BEGIN, b, Deliver(0));
    assert s == Delivered(b, 0);
    assert s.task == DeliveryQueue(map[]);
  }

  lemma ServedByPickup() returns (s: System)
    ensures RunsTo(BEGIN, s) && |s.rows| == 1 == |s.history|
    ensures s.history[0].served == ["token"] && s.history[0].mints == [Mint("token", 9)]
  {
    var a := ReadyIsReachable();
    var b := Follow(BEGIN, a, PickupRead(0, Issued("secret")));
    assert b == a.(locks := map[0 := "token"]);
    s := Follow(BEGIN, b, PickupCommit(0));
    assert s == PickedUp(b, 0);
  }

  lemma ServedIsReachable()
    ensures exists steps :: |Run(1, steps).rows| == 1 == |Run(1, steps).history|
              && Run(1, steps).history[0].served == ["token"] && Run(1, steps).history[0].mints == [Mint("token", 9)]
  {
    var s := ServedByPickup();
    var steps :| Leads(Apply, AnyStep, BEGIN, s, steps);
    assert Run(1, steps) == s;
  }
}

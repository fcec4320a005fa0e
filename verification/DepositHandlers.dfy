/** Left alone, the steps of one task amount to its atomic handler, and so do whole lives of a deposit. */
module DepositHandlers {
  import opened Prelude
  import opened Deposits
  import opened Confirmations
  import opened DepositWorker
  import opened DepositProtocol

  /** The worker rests, and nobody is at work on the deposit. */
  predicate Alone(s: System, id: nat, op: nat) {
    |s.history| == |s.rows| && Free(s, id) && s.task.Idle? && op !in s.operations
  }

  /** The steps that handle an event of the life of one deposit. */
  function StepsOf(id: nat, op: nat, e: Event): seq<Step> {
    match e
    case Watch(obs, tip) => [WatchRead, WatchWrite(id, obs, tip)]
    case Expire(cutoff) => [ExpireRow(id, cutoff)]
    case Work(reply) => [MintRead, CallMint(id, reply), RecordMint] + [DeliveryRead, Deliver(id), EndTick]
    case Operate(action) => [OperatorRead(op, id, action), OperatorWrite(op)]
    case Pickup(presented, _) => [PickupRead(id, presented), PickupCommit(id)]
  }

  /** The row has become `d`, and the deposit is left alone again. */
  predicate Handled(s: System, t: System, id: nat, op: nat, d: Deposit) {
    id < |s.rows| && t.rows == s.rows[id := d] && Alone(t, id, op) && t.maxAttempts == s.maxAttempts
  }

  lemma MintInTurn(s: System, id: nat, reply: MintReply)
    requires |s.history| == |s.rows| && Free(s, id) && s.task.Idle?
    ensures var t, d := From(s, [MintRead, CallMint(id, reply), RecordMint]), s.rows[id];
            && t.rows == s.rows[id := if d.state == Minting then AfterMint(d, d, reply, s.maxAttempts) else d]
            && t.task.MintQueue? && |t.history| == |t.rows| && t.locks == s.locks && t.operations == s.operations
            && t.claims == s.claims && t.maxAttempts == s.maxAttempts
  {
    FoldThree(Apply, s, MintRead, CallMint(id, reply), RecordMint);
  }

  lemma DeliverInTurn(s: System, id: nat)
    requires |s.history| == |s.rows| && Free(s, id) && s.task.MintQueue?
    ensures var t, d := From(s, [DeliveryRead, Deliver(id), EndTick]), s.rows[id];
            && t.rows == s.rows[id := if d.state == Delivering then AfterDelivery(d, d, s.maxAttempts) else d]
            && t.task.Idle? && |t.history| == |t.rows| && t.locks == s.locks && t.operations == s.operations
            && t.claims == s.claims && t.maxAttempts == s.maxAttempts
  {
    FoldThree(Apply, s, DeliveryRead, Deliver(id), EndTick);
    DeliverAtOnce(Apply(s, DeliveryRead), id);
  }

  lemma DeliverAtOnce(s: System, id: nat)
    requires Free(s, id) && |s.history| == |s.rows| && s.task.DeliveryQueue?
    requires id in s.task.queue <==> s.rows[id].state == Delivering
    requires id in s.task.queue ==> s.task.queue[id] == s.rows[id]
    ensures var t, d := Delivered(s, id), s.rows[id];
            && t.rows == s.rows[id := if d.state == Delivering then AfterDelivery(d, d, s.maxAttempts) else d]
            && t == s.(rows := t.rows, task := t.task) && t.task.DeliveryQueue?
  {
  }

  lemma WorkInTurn(s: System, id: nat, op: nat, reply: MintReply)
    requires Alone(s, id, op)
    ensures Handled(s, From(s, StepsOf(id, op, Work(reply))), id, op, Ticked(s.rows[id], reply, s.maxAttempts))
    ensures From(s, StepsOf(id, op, Work(reply))).claims == s.claims
  {
    var mint, deliver := [MintRead, CallMint(id, reply), RecordMint], [DeliveryRead, Deliver(id), EndTick];
    FoldConcat(Apply, s, mint, deliver);
    MintInTurn(s, id, reply);
    DeliverInTurn(From(s, mint), id);
  }

  lemma WatchInTurn(s: System, id: nat, op: nat, obs: seq<Observation>, tip: nat)
    requires Alone(s, id, op)
    ensures Handled(s, From(s, StepsOf(id, op, Watch(obs, tip))), id, op, Confirmed(s.rows[id], obs, tip))
    ensures From(s, StepsOf(id, op, Watch(obs, tip))).claims == s.claims
  {
    FoldTwo(Apply, s, WatchRead, WatchWrite(id, obs, tip));
    WatchAtOnce(Apply(s, WatchRead), id, obs, tip);
  }

  lemma WatchAtOnce(s: System, id: nat, obs: seq<Observation>, tip: nat)
    requires Free(s, id) && |s.history| == |s.rows|
    requires id in s.watched <==> Open(s.rows[id])
    requires id in s.watched ==> s.watched[id] == s.rows[id]
    ensures var t := WatchWritten(s, id, obs, tip);
            && t.rows == s.rows[id := Confirmed(s.rows[id], obs, tip)]
            && t == s.(rows := t.rows, history := t.history, watched := t.watched) && |t.history| == |t.rows|
  {
  }

  lemma OperateInTurn(s: System, id: nat, op: nat, action: Action)
    requires Alone(s, id, op)
    ensures Handled(s, From(s, StepsOf(id, op, Operate(action))), id, op,
                    if Permitted(s.rows[id], action) then Written(s.rows[id], action) else s.rows[id])
    ensures From(s, StepsOf(id, op, Operate(action))).claims == s.claims
  {
    FoldTwo(Apply, s, OperatorRead(op, id, action), OperatorWrite(op));
  }

  lemma PickupInTurn(s: System, id: nat, op: nat, presented: PickupToken)
    requires Alone(s, id, op)
    ensures var t, d := From(s, StepsOf(id, op, Pickup(presented, id in s.claims))), s.rows[id];
            var granted := Claimable(d, presented) && id !in s.claims;
            && Handled(s, t, id, op, if granted then Claimed(d) else d)
            && t.claims == (if granted then s.claims[id := d.mintedToken.value] else s.claims)
            && t.history == (if !granted then s.history else
                             var h := s.history[id];
                             s.history[id := h.(served := h.served + [d.mintedToken.value])])
  {
    FoldTwo(Apply, s, PickupRead(id, presented), PickupCommit(id));
    PickupAtOnce(s, Apply(s, PickupRead(id, presented)), id);
  }

  /** The commit, once the lock is held on the token that the row still has. */
  lemma PickupAtOnce(s: System, locked: System, id: nat)
    requires Free(s, id) && |s.history| == |s.rows| && locked == s.(locks := locked.locks)
    requires locked.locks == s.locks || (s.rows[id].mintedToken.Some?
                                         && locked.locks == s.locks[id := s.rows[id].mintedToken.value])
    ensures var t, d, granted := PickedUp(locked, id), s.rows[id], id in locked.locks && id !in s.claims;
            && t.locks == s.locks
            && t == s.(rows := if granted then s.rows[id := Claimed(d)] else s.rows,
                       claims := if granted then s.claims[id := d.mintedToken.value] else s.claims,
                       history := if !granted then s.history else
                                  var h := s.history[id];
                                  s.history[id := h.(served := h.served + [d.mintedToken.value])])
  {
    assert locked.locks - {id} == s.locks;
  }

  lemma ExpireInTurn(s: System, id: nat, op: nat, cutoff: int)
    requires Alone(s, id, op)
    ensures Handled(s, From(s, StepsOf(id, op, Expire(cutoff))), id, op,
                    if Expirable(s.rows[id], cutoff) then Expired(s.rows[id]) else s.rows[id])
    ensures From(s, StepsOf(id, op, Expire(cutoff))).claims == s.claims
  {
    FoldExtends(Apply, s, [], ExpireRow(id, cutoff));
    assert [] + [ExpireRow(id, cutoff)] == [ExpireRow(id, cutoff)];
  }

  /** An event tells of the claims as they are. */
  predicate Truthful(s: System, id: nat, e: Event) { e.Pickup? ==> (e.claimedBefore <==> id in s.claims) }

  /** Each task, left alone, does to the deposit what its event does. */
  lemma UndisturbedEvent(s: System, id: nat, op: nat, e: Event)
    requires Alone(s, id, op) && Truthful(s, id, e)
    ensures Handled(s, From(s, StepsOf(id, op, e)), id, op, Next(s.rows[id], e, s.maxAttempts))
    ensures !e.Pickup? ==> From(s, StepsOf(id, op, e)).claims == s.claims
  {
    match e
    case Watch(obs, tip) => WatchInTurn(s, id, op, obs, tip);
    case Expire(cutoff) => ExpireInTurn(s, id, op, cutoff);
    case Work(reply) => WorkInTurn(s, id, op, reply);
    case Operate(action) => OperateInTurn(s, id, op, action);
    case Pickup(presented, _) => PickupInTurn(s, id, op, presented);
  }

  function StepsOfAll(id: nat, op: nat, events: seq<Event>): seq<Step> {
    if events == [] then [] else StepsOfAll(id, op, events[..|events| - 1]) + StepsOf(id, op, events[|events| - 1])
  }

  /** Every life without pickups is a run of the interleaved tasks. */
  lemma {:induction false} LifeIsRun(s: System, id: nat, op: nat, events: seq<Event>)
    requires Alone(s, id, op) && forall e :: e in events ==> !e.Pickup?
    ensures Handled(s, From(s, StepsOfAll(id, op, events)), id, op, Life(s.rows[id], events, s.maxAttempts))
    ensures From(s, StepsOfAll(id, op, events)).claims == s.claims
  {
    if events != [] {
      var front, last := events[..|events| - 1], events[|events| - 1];
      LifeIsRun(s, id, op, front);
      FoldConcat(Apply, s, StepsOfAll(id, op, front), StepsOf(id, op, last));
      UndisturbedEvent(From(s, StepsOfAll(id, op, front)), id, op, last);
    }
  }

  /** So the interleaved worker grants the whole retry budget too: left alone, it makes the deposit ready after any
      number of refusals below the budget, and whoever presents its pickup token is served the minted one. */
  lemma BudgetIsServed(s: System, id: nat, op: nat, error: string, k: nat, token: string)
    requires Alone(s, id, op) && s.rows[id].state == Minting && s.rows[id].mintAttempts + k < s.maxAttempts
    requires id !in s.claims
    ensures var ready := From(s, StepsOfAll(id, op, Refusals(error, k) + [Work(Minted(token))]));
            && id < |ready.rows| && id < |ready.history|
            && ready.rows[id].state == Ready && ready.rows[id].mintedToken == Some(token)
            && var presented := ready.rows[id].pickupToken;
               var served := From(ready, StepsOf(id, op, Pickup(presented, false)));
               && id < |served.rows| && id < |served.history|
               && served.rows[id].state == Fulfilled && id in served.claims
               && served.history[id].served == ready.history[id].served + [token]
  {
    var events := Refusals(error, k) + [Work(Minted(token))];
    LifeIsRun(s, id, op, events);
    BudgetIsGranted(s.rows[id], error, k, token, s.maxAttempts);
    var ready := From(s, StepsOfAll(id, op, events));
    PickupInTurn(ready, id, op, ready.rows[id].pickupToken);
  }
}

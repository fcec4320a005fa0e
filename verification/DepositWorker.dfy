/** The worker that mints and delivers deposits (workers/deposit.rs), the operator's actions on deposits (http.rs),
    and the lifecycle of one deposit when each of these runs as one step. */
module DepositWorker {
  import opened Prelude
  import opened Deposits
  import opened Confirmations

  /** The reply to a mint call; a minted token is worth the amount asked for. */
  datatype MintReply = Minted(token: string) | Refused(error: string)

  /** The mint phase, deciding on the row as it was read. */
  function AfterMint(row: Deposit, seen: Deposit, reply: MintReply, maxAttempts: nat): Deposit {
    match reply
    case Minted(token) => MintSucceeded(row, token, seen.amount)
    case Refused(error) => MintFailed(row, if seen.mintAttempts + 1 >= maxAttempts then Failed else Minting, error)
  }

  /** The delivery phase, deciding on the row as it was read. */
  function AfterDelivery(row: Deposit, seen: Deposit, maxAttempts: nat): Deposit {
    if seen.mintedToken.None?
    then DeliveryFailed(row, if seen.deliveryAttempts + 1 >= maxAttempts then Failed else Minting,
                        "missing minted token; returning to minting")
    else DeliverySucceeded(row)
  }

  /** One tick over a row that nobody else writes meanwhile. */
  function Ticked(d: Deposit, reply: MintReply, maxAttempts: nat): Deposit {
    var m := if d.state == Minting then AfterMint(d, d, reply, maxAttempts) else d;
    if m.state == Delivering then AfterDelivery(m, m, maxAttempts) else m
  }

  class Worker {
    const table: DepositTable
    const maxAttempts: nat

    constructor (table: DepositTable, maxAttempts: nat)
      ensures this.table == table && this.maxAttempts == Max(maxAttempts, 1)
    {
      this.table, this.maxAttempts := table, Max(maxAttempts, 1);
    }

    method MintPhase(mint: nat -> MintReply)
      modifies table`rows
      ensures |table.rows| == |old(table.rows)|
      ensures forall i :: 0 <= i < |table.rows| ==>
                table.rows[i] == if old(table.rows)[i].state == Minting
                                 then AfterMint(old(table.rows)[i], old(table.rows)[i], mint(i), maxAttempts)
                                 else old(table.rows)[i]
    {
      var snapshot := table.rows;
      for i := 0 to |snapshot|
        invariant |table.rows| == |snapshot| && snapshot == old(table.rows)
        invariant forall k :: i <= k < |snapshot| ==> table.rows[k] == snapshot[k]
        invariant forall k :: 0 <= k < i ==>
                    table.rows[k] == if snapshot[k].state == Minting
                                     then AfterMint(snapshot[k], snapshot[k], mint(k), maxAttempts)
                                     else snapshot[k]
      {
        var d := snapshot[i];
        if d.state != Minting { continue; }
        var attempt := d.mintAttempts + 1;
        match mint(i) {
          case Minted(token) => table.RecordMintSuccess(i, token, d.amount);
          case Refused(error) =>
            var exhausted := attempt >= maxAttempts;
            table.RecordMintFailure(i, if exhausted then Failed else Minting, error);
        }
      }
    }

    method DeliveryPhase()
      modifies table`rows
      ensures |table.rows| == |old(table.rows)|
      ensures forall i :: 0 <= i < |table.rows| ==>
                table.rows[i] == if old(table.rows)[i].state == Delivering
                                 then AfterDelivery(old(table.rows)[i], old(table.rows)[i], maxAttempts)
                                 else old(table.rows)[i]
    {
      var snapshot := table.rows;
      for i := 0 to |snapshot|
        invariant |table.rows| == |snapshot| && snapshot == old(table.rows)
        invariant forall k :: i <= k < |snapshot| ==> table.rows[k] == snapshot[k]
        invariant forall k :: 0 <= k < i ==>
                    table.rows[k] == if snapshot[k].state == Delivering
                                     then AfterDelivery(snapshot[k], snapshot[k], maxAttempts)
                                     else snapshot[k]
      {
        var d := snapshot[i];
        if d.state != Delivering { continue; }
        var exhausted := d.deliveryAttempts + 1 >= maxAttempts;
        if d.mintedToken.None? {
          var next := if exhausted then Failed else Minting;
          table.RecordDeliveryFailure(i, next, "missing minted token; returning to minting");
          continue;
        }
        table.RecordDeliverySuccess(i);
      }
    }

    method Tick(mint: nat -> MintReply)
      modifies table`rows
      ensures |table.rows| == |old(table.rows)|
      ensures forall i :: 0 <= i < |table.rows| ==> table.rows[i] == Ticked(old(table.rows)[i], mint(i), maxAttempts)
    {
      MintPhase(mint);
      DeliveryPhase();
    }
  }

  datatype Action = MarkFulfilled | MarkFailed(reason: string) | Archive

  predicate Permitted(d: Deposit, a: Action) {
    match a
    case MarkFulfilled => d.state == Delivering || d.state == Ready
    case MarkFailed(_) => d.state != Fulfilled && d.state != ArchivedByOperator
    case Archive => d.state == Failed || d.state == Fulfilled
  }

  function Written(row: Deposit, a: Action): Deposit {
    match a
    case MarkFulfilled => ManualUpdate(row, Fulfilled, None, true)
    case MarkFailed(reason) => ManualUpdate(row, Failed, Some(reason), false)
    case Archive => ManualUpdate(row, ArchivedByOperator, None, false)
  }

  method OperateDeposit(table: DepositTable, id: nat, a: Action) returns (done: bool)
    modifies table`rows
    ensures done <==> id < |old(table.rows)| && Permitted(old(table.rows)[id], a)
    ensures table.rows == if done then old(table.rows)[id := Written(old(table.rows)[id], a)] else old(table.rows)
  {
    done := false;
    if id >= |table.rows| { return; }
    var d := table.rows[id];
    match a {
      case MarkFulfilled =>
        if d.state != Delivering && d.state != Ready { return; }
        done := table.ManualUpdateState(id, Fulfilled, None, true);
      case MarkFailed(reason) =>
        if d.state == Fulfilled { return; }
        if d.state == ArchivedByOperator { return; }
        done := table.ManualUpdateState(id, Failed, Some(reason), false);
      case Archive =>
        if d.state != Failed && d.state != Fulfilled { return; }
        done := table.ManualUpdateState(id, ArchivedByOperator, None, false);
    }
  }

  // The lifecycle of one deposit.

  datatype Event =
    | Watch(obs: seq<Observation>, tip: nat)
    | Expire(cutoff: int)
    | Work(reply: MintReply)
    | Operate(action: Action)
    | Pickup(presented: PickupToken, claimedBefore: bool)

  function Next(d: Deposit, e: Event, maxAttempts: nat): Deposit {
    match e
    case Watch(obs, tip) => Confirmed(d, obs, tip)
    case Expire(cutoff) => if Expirable(d, cutoff) then Expired(d) else d
    case Work(reply) => Ticked(d, reply, maxAttempts)
    case Operate(action) => if Permitted(d, action) then Written(d, action) else d
    case Pickup(presented, claimedBefore) => if Claimable(d, presented) && !claimedBefore then Claimed(d) else d
  }

  /** A refusal ends the minting exactly when it was the last attempt. */
  lemma RefusedExactly(d: Deposit, error: string, maxAttempts: nat)
    requires d.state == Minting
    ensures var t := Ticked(d, Refused(error), maxAttempts);
            && (t.state == Minting <==> d.mintAttempts + 1 < maxAttempts)
            && (t.state == Failed <==> maxAttempts <= d.mintAttempts + 1)
            && t == d.(state := t.state, mintAttempts := d.mintAttempts + 1, mintError := Some(error))
  {
  }

  /** A granted call makes the deposit ready with the token within the tick. */
  lemma GrantedExactly(d: Deposit, token: string, maxAttempts: nat)
    requires d.state == Minting
    ensures Ticked(d, Minted(token), maxAttempts)
         == d.(state := Ready, mintedToken := Some(token), mintedAmount := Some(d.amount), mintError := None,
               deliveryError := None, mintAttempts := d.mintAttempts + 1, deliveryAttempts := d.deliveryAttempts + 1)
  {
  }

  /** A deposit that was read without its token goes back to minting while there are delivery attempts left. */
  lemma MissingTokenExactly(row: Deposit, seen: Deposit, maxAttempts: nat)
    requires seen.mintedToken.None?
    ensures var t := AfterDelivery(row, seen, maxAttempts);
            && (t.state == Failed <==> maxAttempts <= seen.deliveryAttempts + 1)
            && (t.state == Minting <==> seen.deliveryAttempts + 1 < maxAttempts)
            && t == row.(state := t.state, deliveryAttempts := row.deliveryAttempts + 1,
                         deliveryError := t.deliveryError)
  {
  }

  /** The operator can fulfil what has a token to hand out, fail whatever has not been handed out or archived, and
      archive what is over; only the state and the notes change. */
  lemma OperatorExactly(d: Deposit, a: Action)
    ensures Permitted(d, a) <==>
              match a
              case MarkFulfilled => d.state in {Delivering, Ready}
              case MarkFailed(_) => d.state !in {Fulfilled, ArchivedByOperator}
              case Archive => d.state in {Fulfilled, Failed}
    ensures var t := Written(d, a);
            && t == d.(state := t.state, mintError := t.mintError, deliveryError := t.deliveryError)
            && match a
               case MarkFulfilled => t.state == Fulfilled && t.mintError == None && t.deliveryError == None
               case MarkFailed(reason) =>
                 t.state == Failed && t.mintError == Some(reason) && t.deliveryError == Some(reason)
               case Archive =>
                 t.state == ArchivedByOperator && t.mintError == d.mintError && t.deliveryError == d.deliveryError
  {
  }

  function Living(maxAttempts: nat): (Deposit, Event) -> Deposit { (d, e) => Next(d, e, maxAttempts) }

  function Life(d: Deposit, events: seq<Event>, maxAttempts: nat): Deposit { Fold(Living(maxAttempts), d, events) }

  predicate CallsMint(d: Deposit, e: Event) { e.Work? && d.state == Minting }

  /** Mint calls made over a life: one per tick that finds the deposit minting. */
  function MintCalls(d: Deposit, events: seq<Event>, maxAttempts: nat): nat {
    Count(CallsMint, Living(maxAttempts), d, events)
  }

  /** So many refused ticks in a row. */
  function Refusals(error: string, k: nat): seq<Event> { seq(k, i => Work(Refused(error))) }

  lemma {:induction false} AfterRefusals(d: Deposit, error: string, k: nat, maxAttempts: nat)
    requires d.state == Minting && d.mintAttempts + k <= maxAttempts && d.mintAttempts < maxAttempts
    ensures var t := Life(d, Refusals(error, k), maxAttempts);
            && t.mintAttempts == d.mintAttempts + k && t.amount == d.amount
            && t.state == if d.mintAttempts + k < maxAttempts then Minting else Failed
    ensures MintCalls(d, Refusals(error, k), maxAttempts) == k
  {
    if k > 0 {
      assert Refusals(error, k)[..k - 1] == Refusals(error, k - 1);
      AfterRefusals(d, error, k - 1, maxAttempts);
      RefusedExactly(Life(d, Refusals(error, k - 1), maxAttempts), error, maxAttempts);
    }
  }

  /** The whole retry budget is granted: a mint that refuses fewer than `maxAttempts` times and then hands out a token
      makes the deposit ready with that token, after one call more than the refusals. */
  lemma BudgetIsGranted(d: Deposit, error: string, k: nat, token: string, maxAttempts: nat)
    requires d.state == Minting && d.mintAttempts + k < maxAttempts
    ensures var events := Refusals(error, k) + [Work(Minted(token))];
            var t := Life(d, events, maxAttempts);
            && t.state == Ready && t.mintedToken == Some(token) && t.mintedAmount == Some(d.amount)
            && MintCalls(d, events, maxAttempts) == k + 1
  {
    var refusals := Refusals(error, k);
    AfterRefusals(d, error, k, maxAttempts);
    FoldExtends(Living(maxAttempts), d, refusals, Work(Minted(token)));
    assert (refusals + [Work(Minted(token))])[..k] == refusals;
    GrantedExactly(Life(d, refusals, maxAttempts), token, maxAttempts);
  }

  /** Nor is more than the budget granted. */
  lemma BudgetRunsOut(d: Deposit, error: string, maxAttempts: nat)
    requires d.state == Minting && d.mintAttempts < maxAttempts
    ensures Life(d, Refusals(error, maxAttempts - d.mintAttempts), maxAttempts).state == Failed
  {
    AfterRefusals(d, error, maxAttempts - d.mintAttempts, maxAttempts);
  }

  function Rank(s: DepositState): nat {
    match s
    case Pending => 0
    case PartialPaymentReceived => 0
    case Confirming => 0
    case Minting => 1
    case Delivering => 2
    case Ready => 3
    case Fulfilled => 4
    case Failed => 4
    case ArchivedByOperator => 5
  }

  predicate Orderly(d: Deposit, maxAttempts: nat) {
    && d.mintAttempts <= maxAttempts
    && (Open(d) ==> d.mintAttempts == 0 && d.mintedToken.None?)
    && (d.state == Minting ==> d.mintAttempts < maxAttempts && d.mintedToken.None?)
    && (d.state == Delivering || d.state == Ready ==> d.mintedToken.Some? && d.mintedAmount == Some(d.amount))
  }

  lemma NextIsOrderly(d: Deposit, e: Event, maxAttempts: nat)
    requires maxAttempts > 0 && Orderly(d, maxAttempts)
    ensures Orderly(Next(d, e, maxAttempts), maxAttempts)
    ensures Rank(d.state) <= Rank(Next(d, e, maxAttempts).state)
    ensures d.state == ArchivedByOperator ==> Next(d, e, maxAttempts) == d
    ensures Next(d, e, maxAttempts).mintAttempts == d.mintAttempts + if CallsMint(d, e) then 1 else 0
  {
    if e.Watch? && Open(d) && ValidOnes(d, e.obs) != [] { MintingExactly(d, ValidOnes(d, e.obs), e.tip); }
  }

  /** Over every life of a new deposit: a delivering or ready deposit holds its token, so delivery never sends one
      back to minting; ranks never fall; archived is final; and the mint is called at most `maxAttempts` times. */
  lemma {:induction false} LifeIsOrderly(amount: nat, target: nat, created: int, secret: string, events: seq<Event>,
                                         maxAttempts: nat)
    requires maxAttempts > 0
    ensures var d := NewDeposit(amount, target, created, secret);
            && Orderly(Life(d, events, maxAttempts), maxAttempts)
            && MintCalls(d, events, maxAttempts) == Life(d, events, maxAttempts).mintAttempts <= maxAttempts
  {
    if events != [] {
      var d := NewDeposit(amount, target, created, secret);
      LifeIsOrderly(amount, target, created, secret, events[..|events| - 1], maxAttempts);
      NextIsOrderly(Life(d, events[..|events| - 1], maxAttempts), events[|events| - 1], maxAttempts);
    }
  }

  lemma {:induction false} RankNeverFalls(amount: nat, target: nat, created: int, secret: string, events: seq<Event>,
                                               from: nat, maxAttempts: nat)
    requires maxAttempts > 0 && from <= |events|
    ensures var d := NewDeposit(amount, target, created, secret);
            var earlier, later := Life(d, events[..from], maxAttempts), Life(d, events, maxAttempts);
            Rank(earlier.state) <= Rank(later.state) && (earlier.state == ArchivedByOperator ==> later == earlier)
  {
    if from == |events| {
      assert events[..from] == events;
    } else {
      var before := events[..|events| - 1];
      assert before[..from] == events[..from];
      RankNeverFalls(amount, target, created, secret, before, from, maxAttempts);
      LifeIsOrderly(amount, target, created, secret, before, maxAttempts);
      var d := NewDeposit(amount, target, created, secret);
      NextIsOrderly(Life(d, before, maxAttempts), events[|events| - 1], maxAttempts);
    }
  }

  /** Hence the branch of the delivery phase that returns a deposit to minting is never taken. */
  lemma ReturnToMintingIsDead(amount: nat, target: nat, created: int, secret: string, events: seq<Event>,
                              maxAttempts: nat)
    requires maxAttempts > 0
    requires Life(NewDeposit(amount, target, created, secret), events, maxAttempts).state == Delivering
    ensures var d := Life(NewDeposit(amount, target, created, secret), events, maxAttempts);
            AfterDelivery(d, d, maxAttempts).state == Ready
  {
    LifeIsOrderly(amount, target, created, secret, events, maxAttempts);
  }
}

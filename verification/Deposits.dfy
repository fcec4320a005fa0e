/** The deposits and deposit_claims tables and the SQL statements that write them (db.rs). */
module Deposits {
  import opened Prelude

  datatype DepositState =
    | Pending | PartialPaymentReceived | Confirming | Minting | Delivering | Ready
    | Fulfilled | Failed | ArchivedByOperator

  /** The secret handed out at creation; a claim replaces it by a marker. */
  datatype PickupToken = Issued(secret: string) | Spent

  datatype Deposit = Deposit(
    state: DepositState,
    amount: nat,
    received: nat,
    targetConfirmations: nat,
    createdAt: int,
    txid: Option<string>,
    confirmations: nat,
    mintedToken: Option<string>,
    mintedAmount: Option<nat>,
    mintAttempts: nat,
    deliveryAttempts: nat,
    pickupToken: PickupToken,
    mintError: Option<string>,
    deliveryError: Option<string>)

  function NewDeposit(amount: nat, targetConfirmations: nat, createdAt: int, secret: string): Deposit {
    Deposit(Pending, amount, 0, targetConfirmations, createdAt, None, 0, None, None, 0, 0, Issued(secret), None, None)
  }

  /** A new deposit waits for its payment: nothing is received, minted or tried yet. */
  lemma NewDepositWaits(amount: nat, targetConfirmations: nat, createdAt: int, secret: string)
    ensures var d := NewDeposit(amount, targetConfirmations, createdAt, secret);
            && d.state == Pending && d.amount == amount && d.targetConfirmations == targetConfirmations
            && d.createdAt == createdAt && d.pickupToken == Issued(secret)
            && d.received == d.confirmations == d.mintAttempts == d.deliveryAttempts == 0
            && d.txid.None? && d.mintedToken.None? && d.mintedAmount.None? && d.mintError.None? && d.deliveryError.None?
  {
  }

  /** What a pass of the chain watcher found out about a deposit. */
  datatype Finding = Finding(next: DepositState, txid: string, received: nat, covering: nat, confirmations: nat)

  // Each function below is what one UPDATE statement does to a row that its WHERE clause selects.

  function ChainUpdated(d: Deposit, f: Finding): Deposit {
    d.(state := f.next,
       txid := if d.txid.Some? then d.txid else Some(f.txid),
       received := Max(d.received, f.received),
       amount := if f.next == Minting then Max(d.amount, f.covering) else d.amount,
       confirmations := f.confirmations)
  }

  predicate Expirable(d: Deposit, cutoff: int) {
    (d.state == Pending || d.state == PartialPaymentReceived) && d.createdAt <= cutoff
  }

  function Expired(d: Deposit): Deposit {
    d.(state := Failed, mintError := Some("expired_pending_timeout"), deliveryError := None)
  }

  function MintSucceeded(d: Deposit, token: string, amount: nat): Deposit {
    d.(state := Delivering, mintedToken := Some(token), mintedAmount := Some(amount),
       mintAttempts := d.mintAttempts + 1, mintError := None)
  }

  function MintFailed(d: Deposit, next: DepositState, error: string): Deposit {
    d.(state := next, mintAttempts := d.mintAttempts + 1, mintError := Some(error))
  }

  function DeliverySucceeded(d: Deposit): Deposit {
    d.(state := Ready, deliveryAttempts := d.deliveryAttempts + 1, deliveryError := None)
  }

  function DeliveryFailed(d: Deposit, next: DepositState, error: string): Deposit {
    d.(state := next, deliveryAttempts := d.deliveryAttempts + 1, deliveryError := Some(error))
  }

  function ManualUpdate(d: Deposit, next: DepositState, note: Option<string>, clear: bool): Deposit {
    d.(state := next,
       deliveryError := if clear then None else if note.Some? then note else d.deliveryError,
       mintError := if clear then None else if note.Some? then note else d.mintError)
  }

  function Claimed(d: Deposit): Deposit {
    d.(state := Fulfilled, mintedToken := None, pickupToken := Spent)
  }

  /** The row may be claimed with this pickup token. */
  predicate Claimable(d: Deposit, presented: PickupToken) {
    d.pickupToken == presented && d.state == Ready && d.mintedToken.Some?
  }

  predicate Open(d: Deposit) {
    d.state == Pending || d.state == PartialPaymentReceived || d.state == Confirming
  }

  class DepositTable {
    var rows: seq<Deposit>
    var claims: map<nat, string>

    constructor ()
      ensures rows == [] && claims == map[]
    {
      rows, claims := [], map[];
    }

    method Insert(d: Deposit) returns (id: nat)
      modifies this`rows
      ensures id == |old(rows)| && rows == old(rows) + [d]
    {
      id := |rows|;
      rows := rows + [d];
    }

    method UpdateChainState(id: nat, f: Finding)
      modifies this`rows
      ensures rows == if id >= |old(rows)| then old(rows) else
                        var d := old(rows)[id];
                        old(rows)[id := d.(state := f.next, confirmations := f.confirmations,
                                           txid := if d.txid.Some? then d.txid else Some(f.txid),
                                           received := if f.received > d.received then f.received else d.received,
                                           amount := if f.next == Minting && f.covering > d.amount then f.covering
                                                     else d.amount)]
    {
      if id < |rows| { rows := rows[id := ChainUpdated(rows[id], f)]; }
    }

    method RecordMintSuccess(id: nat, token: string, amount: nat)
      modifies this`rows
      ensures rows == if id >= |old(rows)| then old(rows) else
                        var d := old(rows)[id];
                        old(rows)[id := d.(state := Delivering, mintedToken := Some(token),
                                           mintedAmount := Some(amount), mintAttempts := d.mintAttempts + 1,
                                           mintError := None)]
    {
      if id < |rows| { rows := rows[id := MintSucceeded(rows[id], token, amount)]; }
    }

    method RecordMintFailure(id: nat, next: DepositState, error: string)
      modifies this`rows
      ensures rows == if id >= |old(rows)| then old(rows) else
                        var d := old(rows)[id];
                        old(rows)[id := d.(state := next, mintAttempts := d.mintAttempts + 1, mintError := Some(error))]
    {
      if id < |rows| { rows := rows[id := MintFailed(rows[id], next, error)]; }
    }

    method RecordDeliverySuccess(id: nat)
      modifies this`rows
      ensures rows == if id >= |old(rows)| then old(rows) else
                        var d := old(rows)[id];
                        old(rows)[id := d.(state := Ready, deliveryAttempts := d.deliveryAttempts + 1,
                                           deliveryError := None)]
    {
      if id < |rows| { rows := rows[id := DeliverySucceeded(rows[id])]; }
    }

    method RecordDeliveryFailure(id: nat, next: DepositState, error: string)
      modifies this`rows
      ensures rows == if id >= |old(rows)| then old(rows) else
                        var d := old(rows)[id];
                        old(rows)[id := d.(state := next, deliveryAttempts := d.deliveryAttempts + 1,
                                           deliveryError := Some(error))]
    {
      if id < |rows| { rows := rows[id := DeliveryFailed(rows[id], next, error)]; }
    }

    method ManualUpdateState(id: nat, next: DepositState, note: Option<string>, clear: bool) returns (found: bool)
      modifies this`rows
      ensures found == (id < |old(rows)|)
      ensures rows == if !found then old(rows) else
                        var d := old(rows)[id];
                        old(rows)[id := d.(state := next,
                                           deliveryError := if clear then None else if note.Some? then note
                                                            else d.deliveryError,
                                           mintError := if clear then None else if note.Some? then note
                                                        else d.mintError)]
    {
      found := id < |rows|;
      if found { rows := rows[id := ManualUpdate(rows[id], next, note, clear)]; }
    }

    method ExpireStalePending(cutoff: int) returns (expired: nat)
      modifies this`rows
      ensures |rows| == |old(rows)|
      ensures forall i :: 0 <= i < |rows| ==>
                var d := old(rows)[i];
                rows[i] == if (d.state == Pending || d.state == PartialPaymentReceived) && d.createdAt <= cutoff
                           then d.(state := Failed, mintError := Some("expired_pending_timeout"), deliveryError := None)
                           else d
      ensures expired == Sum((d: Deposit) => if Expirable(d, cutoff) then 1 else 0, old(rows))
    {
      expired := 0;
      ghost var count := (d: Deposit) => if Expirable(d, cutoff) then 1 else 0;
      for i := 0 to |rows|
        invariant |rows| == |old(rows)|
        invariant forall k :: 0 <= k < i ==>
                    rows[k] == if Expirable(old(rows)[k], cutoff) then Expired(old(rows)[k]) else old(rows)[k]
        invariant forall k :: i <= k < |rows| ==> rows[k] == old(rows)[k]
        invariant expired == Sum(count, old(rows)[..i])
      {
        assert old(rows)[..i + 1][..i] == old(rows)[..i];
        if Expirable(rows[i], cutoff) {
          rows := rows[i := Expired(rows[i])];
          expired := expired + 1;
        }
      }
      assert old(rows)[..|rows|] == old(rows);
    }

    /** Hands the minted token out exactly once: the claim row, the cleared token and the replaced pickup token each
        rule out a second success. */
    method ClaimPickup(id: nat, presented: PickupToken) returns (served: Option<string>)
      modifies this
      ensures served.Some? <==>
                && id < |old(rows)| && id !in old(claims)
                && old(rows)[id].state == Ready && old(rows)[id].mintedToken.Some?
                && old(rows)[id].pickupToken == presented
      ensures served.Some? ==>
                && served == old(rows)[id].mintedToken
                && rows == old(rows)[id := old(rows)[id].(state := Fulfilled, mintedToken := None,
                                                          pickupToken := Spent)]
                && claims == old(claims)[id := served.value]
                && forall again: PickupToken :: !Claimable(rows[id], again)
      ensures served.None? ==> unchanged(this)
    {
      if id >= |rows| || rows[id].pickupToken != presented { return None; }
      var d := rows[id];
      if d.state == Fulfilled { return None; }
      if d.mintedToken.None? { return None; }
      if d.state != Ready { return None; }
      if id in claims { return None; }
      claims := claims[id := d.mintedToken.value];
      rows := rows[id := Claimed(d)];
      return d.mintedToken;
    }
  }
}

/** The withdrawals table: its rows and the SQL statements that write them (db.rs). */
module Withdrawals {
  import opened Prelude
  import opened Redemption

  datatype WithdrawalState =
    | Funding | Queued | Broadcasting | Confirming | Settled | Failed | ArchivedByOperator

  datatype Withdrawal = Withdrawal(
    state: WithdrawalState,
    requested: Option<u64>,
    token: Option<Token>,
    tokenValue: Option<u64>,
    tokenConsumed: bool,
    swapFee: Option<u64>,
    txid: Option<string>,
    error: Option<string>,
    attempts: nat,
    requestId: Option<string>,
    requestFulfilledAt: Option<int>,
    lightningQuote: Option<string>,
    invoiceExpiresAt: Option<int>,
    invoicePaidAt: Option<int>)

  // Each function below is what one UPDATE statement does to a row that its WHERE clause selects.

  function ChainState(w: Withdrawal, next: WithdrawalState): Withdrawal { w.(state := next) }

  function ManualUpdate(w: Withdrawal, next: WithdrawalState, txid: Option<string>, error: Option<string>,
                        reset: bool): Withdrawal
  {
    w.(state := next, txid := txid, error := error, attempts := if reset then 0 else w.attempts)
  }

  function Coalesce<T>(a: Option<T>, b: Option<T>): Option<T> { if a.Some? then a else b }

  function Attempted(w: Withdrawal, next: WithdrawalState, value: Option<u64>, txid: Option<string>,
                     error: Option<string>): Withdrawal
  {
    w.(state := next, tokenValue := Coalesce(value, w.tokenValue), txid := Coalesce(txid, w.txid),
       error := error, attempts := w.attempts + 1)
  }

  function Consumed(w: Withdrawal, amount: u64, swapFee: Option<u64>): Withdrawal {
    w.(tokenConsumed := true, tokenValue := Some(amount), swapFee := swapFee)
  }

  function LightningFunded(w: Withdrawal, amount: u64, paidAt: int): Withdrawal {
    w.(tokenConsumed := true, tokenValue := Some(amount), state := Queued, invoicePaidAt := Some(paidAt))
  }

  const INVOICE_EXPIRED := "Lightning invoice expired before payment was received"

  function InvoiceExpired(w: Withdrawal): Withdrawal { w.(state := Failed, error := Some(INVOICE_EXPIRED)) }

  function TokenRecorded(w: Withdrawal, token: Token, now: int): Withdrawal {
    w.(token := Some(token), state := Queued, requestFulfilledAt := Some(now))
  }

  /** A stored redemption always passes validation again. */
  predicate Priced(w: Withdrawal) {
    && w.requested.Some? && w.requested.value > 0
    && (if w.tokenConsumed then w.tokenValue.Some? && ValidRedemption(w.requested, w.tokenValue.value, w.swapFee)
        else w.tokenValue.None?)
    && (w.state == Funding ==> !w.tokenConsumed)
  }

  // Reservations against the on-chain balance.

  predicate Active(w: Withdrawal) {
    w.state == Funding || w.state == Queued || w.state == Broadcasting || w.state == Confirming
  }

  /** COALESCE(token_value_sats, requested_amount_sats, 0) of a row that still reserves balance. */
  function Reserved(w: Withdrawal): nat {
    if Active(w) then Coalesce(w.tokenValue, w.requested).GetOr(0) else 0
  }

  function ReservedTotal(rows: seq<Withdrawal>): nat { Sum(Reserved, rows) }

  datatype RatioRaw = Ratio(num: nat, den: nat)

  /** single_request_cap_ratio; the configuration accepts only values from 0 to 1. */
  type CapRatio = r: RatioRaw | 0 < r.den && r.num <= r.den witness Ratio(1, 1)

  function Cap(available: nat, ratio: CapRatio): nat { available * ratio.num / ratio.den }

  /** The cap is the largest whole amount within the ratio. */
  lemma CapExactly(available: nat, ratio: CapRatio, amount: nat)
    ensures Cap(available, ratio) * ratio.den <= available * ratio.num < (Cap(available, ratio) + 1) * ratio.den
    ensures amount <= Cap(available, ratio) <==> amount * ratio.den <= available * ratio.num
  {
    var cap, whole := Cap(available, ratio), available * ratio.num;
    assert cap * ratio.den <= whole < (cap + 1) * ratio.den by { Quotient(whole, ratio.den); }
    if amount <= cap { MulMonotone(ratio.den, amount, cap); } else { MulMonotone(ratio.den, cap + 1, amount); }
  }

  lemma Quotient(x: nat, d: nat)
    requires 0 < d
    ensures x / d * d <= x < (x / d + 1) * d
  {
    assert x == d * (x / d) + x % d;
  }

  lemma CapAtMostAvailable(available: nat, ratio: CapRatio)
    ensures Cap(available, ratio) <= available
  {
    var n, d := ratio.num, ratio.den;
    assert available * n <= available * d by { MulMonotone(available, n, d); }
    DivMonotone(available * n, available, d);
  }

  lemma MulMonotone(a: nat, n: nat, d: nat)
    requires n <= d
    ensures a * n <= a * d
  {
    assert a * d - a * n == a * (d - n);
  }

  lemma DivMonotone(x: nat, a: nat, d: nat)
    requires 0 < d && x <= a * d
    ensures x / d <= a
  {
    var q := x / d;
    assert d * q <= x;
    if q > a { MulMonotone(d, a + 1, q); }
  }

  /** The capacity check of a NUT-18 payment: with this row counted at its token's value, the cap on what is left
      of the balance is positive and covers that value. */
  predicate Fits(rows: seq<Withdrawal>, id: nat, amount: u64, rawOnchain: u64, ratio: CapRatio)
    requires id < |rows|
  {
    var adjusted := ReservedTotal(rows) - Reserved(rows[id]) + amount;
    adjusted < rawOnchain && 0 < Cap(rawOnchain - adjusted, ratio) && amount <= Cap(rawOnchain - adjusted, ratio)
  }

  /** The reservations with this row at the value of its token, and that value within the cap on the rest. */
  lemma FitsExactly(rows: seq<Withdrawal>, id: nat, amount: u64, rawOnchain: u64, ratio: CapRatio)
    requires id < |rows|
    ensures Fits(rows, id, amount, rawOnchain, ratio) <==>
              var left := rawOnchain - (ReservedTotal(rows) - Reserved(rows[id]) + amount);
              left > 0 && ratio.den <= left * ratio.num && amount * ratio.den <= left * ratio.num
  {
    var adjusted := ReservedTotal(rows) - Reserved(rows[id]) + amount;
    if adjusted < rawOnchain {
      CapExactly(rawOnchain - adjusted, ratio, amount);
      CapExactly(rawOnchain - adjusted, ratio, 1);
    }
  }

  datatype RecordOutcome = Recorded | NotAccepting | CapacityExceeded

  class WithdrawalTable {
    var rows: seq<Withdrawal>

    constructor ()
      ensures rows == []
    {
      rows := [];
    }

    method Insert(w: Withdrawal) returns (id: nat)
      modifies this
      ensures id == |old(rows)| && rows == old(rows) + [w]
    {
      id := |rows|;
      rows := rows + [w];
    }

    method UpdateChainState(id: nat, next: WithdrawalState) returns (found: bool)
      modifies this
      ensures found == (id < |old(rows)|)
      ensures rows == if found then old(rows)[id := old(rows)[id].(state := next)] else old(rows)
    {
      found := id < |rows|;
      if found { rows := rows[id := ChainState(rows[id], next)]; }
    }

    method ManualUpdateState(id: nat, next: WithdrawalState, txid: Option<string>, error: Option<string>, reset: bool)
      returns (found: bool)
      modifies this
      ensures found == (id < |old(rows)|)
      ensures rows == if !found then old(rows) else
                        var w := old(rows)[id];
                        old(rows)[id := w.(state := next, txid := txid, error := error,
                                           attempts := if reset then 0 else w.attempts)]
    {
      found := id < |rows|;
      if found { rows := rows[id := ManualUpdate(rows[id], next, txid, error, reset)]; }
    }

    method RecordAttempt(id: nat, next: WithdrawalState, value: Option<u64>, txid: Option<string>,
                         error: Option<string>)
      modifies this
      ensures rows == if id >= |old(rows)| then old(rows) else
                        var w := old(rows)[id];
                        old(rows)[id := w.(state := next, error := error, attempts := w.attempts + 1,
                                           tokenValue := if value.Some? then value else w.tokenValue,
                                           txid := if txid.Some? then txid else w.txid)]
    {
      if id < |rows| { rows := rows[id := Attempted(rows[id], next, value, txid, error)]; }
    }

    method RecordTokenConsumed(id: nat, amount: u64, swapFee: Option<u64>)
      modifies this
      ensures rows == if id >= |old(rows)| then old(rows) else
                        var w := old(rows)[id];
                        old(rows)[id := w.(tokenConsumed := true, tokenValue := Some(amount), swapFee := swapFee)]
    {
      if id < |rows| { rows := rows[id := Consumed(rows[id], amount, swapFee)]; }
    }

    method RecordLightningFunded(id: nat, amount: u64, paidAt: int) returns (changed: bool)
      modifies this
      ensures changed == (id < |old(rows)| && old(rows)[id].state == Funding)
      ensures rows == if !changed then old(rows) else
                        var w := old(rows)[id];
                        old(rows)[id := w.(state := Queued, tokenConsumed := true, tokenValue := Some(amount),
                                           invoicePaidAt := Some(paidAt))]
    {
      changed := id < |rows| && rows[id].state == Funding;
      if changed { rows := rows[id := LightningFunded(rows[id], amount, paidAt)]; }
    }

    method MarkInvoiceExpired(id: nat) returns (changed: bool)
      modifies this
      ensures changed == (id < |old(rows)| && old(rows)[id].state == Funding && old(rows)[id].lightningQuote.Some?)
      ensures rows == if changed then old(rows)[id := old(rows)[id].(state := Failed, error := Some(INVOICE_EXPIRED))]
                      else old(rows)
    {
      changed := id < |rows| && rows[id].state == Funding && rows[id].lightningQuote.Some?;
      if changed { rows := rows[id := InvoiceExpired(rows[id])]; }
    }

    /** Records a NUT-18 payment under a table lock. When it reports `Recorded`, all reservations with this row
        counted at the value of its token, and that value once more, fit in the balance that was passed in. */
    method RecordPaymentRequestTokenLocked(id: nat, token: Token, rawOnchain: u64, ratio: CapRatio, now: int)
      returns (outcome: Option<RecordOutcome>)
      modifies this
      ensures outcome.None? <==> id >= |old(rows)|
      ensures outcome == Some(NotAccepting) <==> id < |old(rows)| && old(rows)[id].state != Funding
      ensures outcome == Some(Recorded) <==>
                && id < |old(rows)| && old(rows)[id].state == Funding
                && Fits(old(rows), id, token.value, rawOnchain, ratio)
      ensures outcome == Some(Recorded) ==>
                && Reserved(old(rows)[id]) <= ReservedTotal(old(rows))
                && ReservedTotal(old(rows)) - Reserved(old(rows)[id]) + token.value + token.value <= rawOnchain
      ensures rows == if outcome != Some(Recorded) then old(rows) else
                        var w := old(rows)[id];
                        old(rows)[id := w.(state := Queued, token := Some(token), requestFulfilledAt := Some(now))]
    {
      if id >= |rows| { return None; }
      if rows[id].state != Funding { return Some(NotAccepting); }
      var current := Reserved(rows[id]);
      var total := ReservedTotal(rows);
      SumAtLeast(Reserved, rows, id);
      var adjusted := Min(SatSub(total, current) + token.value, U64_MAX);
      var available := SatSub(rawOnchain, adjusted);
      var cap := Cap(available, ratio);
      CapAtMostAvailable(available, ratio);
      if cap == 0 || token.value > cap { return Some(CapacityExceeded); }
      rows := rows[id := TokenRecorded(rows[id], token, now)];
      return Some(Recorded);
    }
  }
}

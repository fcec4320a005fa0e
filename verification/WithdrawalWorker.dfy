/** The worker that redeems queued withdrawals and pays them on chain (workers/withdrawal.rs), one tick at a time. */
module WithdrawalWorker {
  import opened Prelude
  import opened Redemption
  import opened Withdrawals

  /** A broadcast transaction and the miner fee it spent. */
  datatype Sent = Sent(txid: string, minerFee: nat)

  /** The table together with the on-chain wallet; `paid` is the total of all sends. */
  datatype Book = Book(rows: seq<Withdrawal>, balance: nat, minerFees: nat, paid: nat)

  /** What the mints and the network reply to the work on one withdrawal. */
  datatype Replies = Replies(redeem: nat -> Option<Redeemed>, send: nat -> Option<Sent>)

  datatype Claim = Claim(row: Withdrawal, value: u64)

  /** The value a withdrawal may be paid from: the stored one when the token is already consumed, otherwise the
      result of a redemption, which is stored before anything is sent. */
  function ClaimOf(w: Withdrawal, redeem: Option<Redeemed>): Option<Claim> {
    if w.tokenConsumed then
      if w.tokenValue.Some? && ValidRedemption(w.requested, w.tokenValue.value, w.swapFee)
      then Some(Claim(w, w.tokenValue.value)) else None
    else if w.token.Some? && redeem.Some? && ValidRedemption(w.requested, redeem.value.amount, redeem.value.swapFee)
    then Some(Claim(Consumed(w, redeem.value.amount, redeem.value.swapFee), redeem.value.amount)) else None
  }

  predicate Sendable(balance: nat, amount: nat, send: Option<Sent>) {
    send.Some? && amount + send.value.minerFee <= balance
  }

  /** A failure of this attempt leaves none for another. */
  predicate Exhausted(snapshot: Withdrawal, maxAttempts: nat) { snapshot.attempts + 1 >= maxAttempts }

  function Failing(w: Withdrawal, snapshot: Withdrawal, error: string, maxAttempts: nat): Withdrawal {
    Attempted(w, if Exhausted(snapshot, maxAttempts) then Failed else Queued, None, None, Some(error))
  }

  /** The effect of working on withdrawal `id`, read as `w`. */
  function Worked(b: Book, id: nat, w: Withdrawal, replies: Replies, maxAttempts: nat): Book
    requires id < |b.rows|
  {
    var claim := ClaimOf(w, replies.redeem(id));
    if claim.None? then b.(rows := b.rows[id := Failing(b.rows[id], w, "redemption", maxAttempts)])
    else
      var row := if w.tokenConsumed then b.rows[id]
                 else Consumed(b.rows[id], claim.value.value, replies.redeem(id).value.swapFee);
      var amount := Payout(claim.value.value, w.requested.value);
      var send := replies.send(id);
      if Sendable(b.balance, amount, send)
      then Book(b.rows[id := Attempted(row, Settled, Some(claim.value.value), Some(send.value.txid), None)],
                b.balance - amount - send.value.minerFee, b.minerFees + send.value.minerFee, b.paid + amount)
      else b.(rows := b.rows[id := Failing(row, w, "send", maxAttempts)])
  }

  function InState(rows: seq<Withdrawal>, state: WithdrawalState): (ids: seq<nat>)
    ensures forall k :: 0 <= k < |ids| ==> ids[k] < |rows| && rows[ids[k]].state == state
  {
    if rows == [] then [] else
      InState(rows[..|rows| - 1], state) + if rows[|rows| - 1].state == state then [|rows| - 1] else []
  }

  /** Working through `ids` with the rows read beforehand. */
  function WorkedAll(b: Book, snapshot: seq<Withdrawal>, ids: seq<nat>, replies: Replies, maxAttempts: nat): (r: Book)
    requires |snapshot| == |b.rows| && forall k :: 0 <= k < |ids| ==> ids[k] < |b.rows|
    ensures |r.rows| == |b.rows|
  {
    if ids == [] then b else
      var id := ids[|ids| - 1];
      Worked(WorkedAll(b, snapshot, ids[..|ids| - 1], replies, maxAttempts), id, snapshot[id], replies, maxAttempts)
  }

  datatype QuoteState = Unpaid | Paid | Issued

  /** A Lightning quote as the mint reports it after the worker has minted a paid one. */
  datatype QuoteStatus = QuoteStatus(state: QuoteState, issued: u64, paid: u64)

  /** What one funding pass does to a row. */
  function FundingChecked(w: Withdrawal, now: int, quote: QuoteStatus): Withdrawal {
    if w.state != Funding then w
    else if w.invoiceExpiresAt.Some? && w.invoicePaidAt.None? && now > w.invoiceExpiresAt.value then
      if w.lightningQuote.Some? then InvoiceExpired(w) else w
    else if w.lightningQuote.None? || quote.state == Unpaid then w
    else
      var funded := Max(Max(quote.issued, quote.paid), w.requested.GetOr(0));
      if funded == 0 then w else LightningFunded(w, funded, now)
  }

  predicate PastExpiry(w: Withdrawal, now: int) {
    w.invoiceExpiresAt.Some? && w.invoicePaidAt.None? && w.invoiceExpiresAt.value < now
  }

  /** The mint has been paid for the quote, or has issued on it, and there is an amount to credit. */
  predicate InvoicePaid(w: Withdrawal, quote: QuoteStatus) {
    w.lightningQuote.Some? && (quote.state == Paid || quote.state == Issued)
    && (0 < quote.issued || 0 < quote.paid || 0 < w.requested.GetOr(0))
  }

  /** A funding pass gives up exactly the rows with a quote that are past their expiry, and queues exactly the others
      whose invoice is paid; those are credited the largest of what was issued, paid and asked for. All other rows stay
      as they were. */
  lemma FundingExactly(w: Withdrawal, now: int, quote: QuoteStatus)
    requires w.state == Funding
    ensures var t := FundingChecked(w, now, quote);
            && (t.state == Failed <==> w.lightningQuote.Some? && PastExpiry(w, now))
            && (t.state == Queued <==> !PastExpiry(w, now) && InvoicePaid(w, quote))
            && (t.state == Queued ==>
                  && t.tokenConsumed && t.invoicePaidAt == Some(now) && t.tokenValue.Some?
                  && t.tokenValue.value >= quote.issued && t.tokenValue.value >= quote.paid
                  && t.tokenValue.value >= w.requested.GetOr(0)
                  && t.tokenValue.value in {quote.issued, quote.paid, w.requested.GetOr(0)})
            && (t.state != Failed && t.state != Queued ==> t == w)
  {
  }

  function FundingPass(rows: seq<Withdrawal>, now: int, quote: nat -> QuoteStatus): (r: seq<Withdrawal>)
    ensures |r| == |rows|
    ensures forall i :: 0 <= i < |rows| ==> r[i] == FundingChecked(rows[i], now, quote(i))
  {
    seq(|rows|, i requires 0 <= i < |rows| => FundingChecked(rows[i], now, quote(i)))
  }

  /** The whole tick: the funding pass, then every queued withdrawal in order. */
  function Ticked(b: Book, now: int, quote: nat -> QuoteStatus, replies: Replies, maxAttempts: nat): (r: Book)
    ensures |r.rows| == |b.rows|
  {
    var rows := FundingPass(b.rows, now, quote);
    WorkedAll(b.(rows := rows), rows, InState(rows, Queued), replies, maxAttempts)
  }

  class OnchainWallet {
    var balance: nat
    var minerFees: nat
    var paid: nat

    /** A deposit arrives on chain. */
    method Receive(sats: nat)
      modifies this
      ensures balance == old(balance) + sats && minerFees == old(minerFees) && paid == old(paid)
    {
      balance := balance + sats;
    }

    method SendToAddress(amount: nat, reply: Option<Sent>) returns (txid: Option<string>)
      modifies this
      ensures txid == if Sendable(old(balance), amount, reply) then Some(reply.value.txid) else None
      ensures txid.Some? ==>
                && balance == old(balance) - amount - reply.value.minerFee
                && minerFees == old(minerFees) + reply.value.minerFee
                && paid == old(paid) + amount
      ensures txid.None? ==> unchanged(this)
    {
      if !Sendable(balance, amount, reply) { return None; }
      balance := balance - amount - reply.value.minerFee;
      minerFees := minerFees + reply.value.minerFee;
      paid := paid + amount;
      return Some(reply.value.txid);
    }
  }

  datatype Outcome = Outcome(value: u64, txid: string)

  class Worker {
    const table: WithdrawalTable
    const wallet: OnchainWallet
    const maxAttempts: nat

    constructor (table: WithdrawalTable, wallet: OnchainWallet, maxAttempts: nat)
      ensures this.table == table && this.wallet == wallet && this.maxAttempts == Max(maxAttempts, 1)
    {
      this.table, this.wallet, this.maxAttempts := table, wallet, Max(maxAttempts, 1);
    }

    function Contents(): Book
      reads table, wallet
    {
      Book(table.rows, wallet.balance, wallet.minerFees, wallet.paid)
    }

    /** CashuToOnchainExecutor::execute on a row read as `w`. */
    method Execute(id: nat, w: Withdrawal, redeem: Option<Redeemed>, send: Option<Sent>)
      returns (r: Result<Outcome, string>)
      requires id < |table.rows|
      modifies table, wallet
      ensures var claim := ClaimOf(w, redeem);
              if claim.None? then r == Err("redemption") && Contents() == old(Contents())
              else
                var row := if w.tokenConsumed then old(table.rows)[id]
                           else Consumed(old(table.rows)[id], claim.value.value, redeem.value.swapFee);
                var amount := Payout(claim.value.value, w.requested.value);
                && table.rows == old(table.rows)[id := row]
                && if Sendable(old(wallet.balance), amount, send)
                   then r == Ok(Outcome(claim.value.value, send.value.txid))
                        && wallet.balance == old(wallet.balance) - amount - send.value.minerFee
                        && wallet.minerFees == old(wallet.minerFees) + send.value.minerFee
                        && wallet.paid == old(wallet.paid) + amount
                   else r == Err("send") && unchanged(wallet)
    {
      var value: u64;
      if w.tokenConsumed {
        if w.tokenValue.None? { return Err("redemption"); }
        if !ValidRedemption(w.requested, w.tokenValue.value, w.swapFee) { return Err("redemption"); }
        value := w.tokenValue.value;
      } else {
        if w.token.None? || redeem.None? { return Err("redemption"); }
        if !ValidRedemption(w.requested, redeem.value.amount, redeem.value.swapFee) { return Err("redemption"); }
        table.RecordTokenConsumed(id, redeem.value.amount, redeem.value.swapFee);
        value := redeem.value.amount;
      }
      var txid := wallet.SendToAddress(Payout(value, w.requested.value), send);
      r := if txid.Some? then Ok(Outcome(value, txid.value)) else Err("send");
    }

    method TickFunding(now: int, quote: nat -> QuoteStatus)
      modifies table
      ensures table.rows == FundingPass(old(table.rows), now, quote)
    {
      var snapshot := table.rows;
      for i := 0 to |snapshot|
        invariant |table.rows| == |snapshot| && snapshot == old(table.rows)
        invariant forall k :: 0 <= k < i ==> table.rows[k] == FundingChecked(snapshot[k], now, quote(k))
        invariant forall k :: i <= k < |snapshot| ==> table.rows[k] == snapshot[k]
      {
        var w := snapshot[i];
        if w.state != Funding { continue; }
        if w.invoiceExpiresAt.Some? && w.invoicePaidAt.None? && now > w.invoiceExpiresAt.value {
          var _ := table.MarkInvoiceExpired(i);
          continue;
        }
        if w.lightningQuote.None? { continue; }
        var status := quote(i);
        if status.state == Unpaid { continue; }
        var funded: u64 := Max(Max(status.issued, status.paid), w.requested.GetOr(0));
        if funded == 0 { continue; }
        var _ := table.RecordLightningFunded(i, funded, now);
      }
    }

    /** One queued withdrawal: execute it and record the attempt. */
    method WorkOn(id: nat, w: Withdrawal, replies: Replies)
      requires id < |table.rows|
      modifies table, wallet
      ensures Contents() == Worked(old(Contents()), id, w, replies, maxAttempts)
    {
      var outcome := Execute(id, w, replies.redeem(id), replies.send(id));
      match outcome {
        case Ok(o) => table.RecordAttempt(id, Settled, Some(o.value), Some(o.txid), None);
        case Err(e) =>
          var next := if w.attempts + 1 >= maxAttempts then Failed else Queued;
          table.RecordAttempt(id, next, None, None, Some(e));
      }
    }

    /** Every listed withdrawal in turn, as it was read before the first. */
    method WorkThrough(queued: seq<nat>, replies: Replies)
      requires forall k :: 0 <= k < |queued| ==> queued[k] < |table.rows|
      modifies table, wallet
      ensures Contents() == WorkedAll(old(Contents()), old(table.rows), queued, replies, maxAttempts)
    {
      ghost var start := Contents();
      var snapshot := table.rows;
      for k := 0 to |queued|
        invariant |table.rows| == |snapshot|
        invariant Contents() == WorkedAll(start, snapshot, queued[..k], replies, maxAttempts)
      {
        var id := queued[k];
        var w := snapshot[id];
        assert queued[..k + 1][..k] == queued[..k];
        WorkOn(id, w, replies);
      }
      assert queued[..|queued|] == queued;
    }

    method Tick(now: int, quote: nat -> QuoteStatus, replies: Replies)
      modifies table, wallet
      ensures Contents() == Ticked(old(Contents()), now, quote, replies, maxAttempts)
    {
      TickFunding(now, quote);
      WorkThrough(InState(table.rows, Queued), replies);
    }
  }
}

/** Left alone, the tasks that share the withdrawal rows do what their atomic handlers do. */
module WithdrawalHandlers {
  import opened Prelude
  import opened Redemption
  import opened Withdrawals
  import opened Admission
  import opened WithdrawalProtocol
  import W = WithdrawalWorker

  predicate Rows(s: System, id: nat) { id < |s.rows| && |s.history| == |s.rows| }

  lemma FundingAtOnce(row: Withdrawal, h: History, now: int, quote: W.QuoteStatus)
    ensures FundingMove(row, h, row, now, quote).0 == W.FundingChecked(row, now, quote)
  {
  }

  /** Read and checked in one go, a withdrawal is funded, expired or left as the funding pass decides. */
  lemma UndisturbedFunding(s: System, id: nat, now: int, quote: W.QuoteStatus)
    requires Rows(s, id) && s.worker.Idle?
    ensures From(s, [FundingRead, FundingWrite(id, now, quote)]).rows
         == s.rows[id := W.FundingChecked(s.rows[id], now, quote)]
  {
    FoldTwo(Apply, s, FundingRead, FundingWrite(id, now, quote));
    FundingAtOnce(s.rows[id], s.history[id], now, quote);
  }

  /** However old the read is, a withdrawal that is no longer waiting is not touched; one that still waits expires
      exactly when the invoice that was read is past its expiry and the withdrawal has a quote, and is queued with at
      least what was asked for exactly when that invoice is not past its expiry and paid. */
  lemma StaleFunding(row: Withdrawal, h: History, seen: Withdrawal, now: int, quote: W.QuoteStatus)
    requires seen.state == Funding && seen.lightningQuote.Some?
    ensures var (next, noted) := FundingMove(row, h, seen, now, quote);
            && (row.state != Funding ==> next == row)
            && (row.state == Funding ==>
                  && (next.state == Failed <==> row.lightningQuote.Some? && W.PastExpiry(seen, now))
                  && (next.state == Queued <==> !W.PastExpiry(seen, now) && W.InvoicePaid(seen, quote))
                  && (next.state == Queued ==>
                        && next.tokenValue.Some? && next.tokenValue.value >= seen.requested.GetOr(0)
                        && next == row.(state := Queued, tokenConsumed := true, tokenValue := next.tokenValue,
                                        invoicePaidAt := Some(now)))
                  && (next.state == Failed ==> next == row.(state := Failed, error := Some(INVOICE_EXPIRED)))
                  && (next.state != Failed && next.state != Queued ==> next == row))
            && (noted.fundings == h.fundings + if row.state == Funding && next.state == Queued then 1 else 0)
            && noted == h.(fundings := noted.fundings)
  {
    W.FundingExactly(seen, now, quote);
  }

  /** Read and settled in one go, a withdrawal follows the status of its transaction. */
  lemma UndisturbedWatch(s: System, id: nat, status: Option<TxStatus>)
    requires Rows(s, id)
    ensures From(s, [WatchRead, WatchWrite(id, status)]).rows == s.rows[id := Watched(s.rows[id], status)]
  {
    FoldTwo(Apply, s, WatchRead, WatchWrite(id, status));
  }

  /** Checked and recorded in one go, a payment is accepted as by the atomic handler. */
  lemma UndisturbedPayment(s: System, call: nat, id: nat, payload: Option<Token>, payloadId: Option<string>,
                           expired: bool, raw: u64, ratio: CapRatio, now: int)
    requires Rows(s, id) && call !in s.callbacks
    ensures From(s, [CallbackRead(call, id, payload, payloadId, expired), CallbackWrite(call, raw, ratio, now)]).rows
         == if PaymentMatches(s.rows[id], payload, payloadId, expired)
               && Fits(s.rows, id, payload.value.value, raw, ratio)
            then s.rows[id := TokenRecorded(s.rows[id], payload.value, now)] else s.rows
  {
    FoldTwo(Apply, s, CallbackRead(call, id, payload, payloadId, expired), CallbackWrite(call, raw, ratio, now));
  }

  /** Without an on-chain wallet, a redeemed withdrawal is left broadcasting with its value stored, nothing is sent, and
      the worker takes up the rest of its queue. */
  lemma HandedOverIsRecorded(s: System)
    requires s.worker.Paying? && Rows(s, s.worker.id)
    ensures var t, id := From(s, [HandOver, Record]), s.worker.id;
            && t.history == s.history && t.worker == Working(s.worker.queue)
            && var w := s.rows[id];
               t.rows == s.rows[id := w.(state := Broadcasting, tokenValue := Some(s.worker.value), error := None,
                                         attempts := w.attempts + 1)]
  {
    FoldTwo(Apply, s, HandOver, Record);
  }

  /** However the row has changed meanwhile, a payout is recorded as settled with its transaction, and a failure puts
      the row back into the queue exactly when there are attempts left by the count that was read. */
  lemma RecordedExactly(s: System)
    requires (s.worker.Paid? || s.worker.Failing?) && Rows(s, s.worker.id)
    ensures var t, id := Recording(s), s.worker.id;
            && t.worker == Working(s.worker.queue) && t.history == s.history && |t.rows| == |s.rows|
            && t.rows == s.rows[id := t.rows[id]] && t.rows[id].attempts == s.rows[id].attempts + 1
            && (s.worker.Paid? && s.worker.txid.Some? ==>
                  t.rows[id].state == Settled && t.rows[id].txid == s.worker.txid && t.rows[id].error == None
                  && t.rows[id].tokenValue == Some(s.worker.value))
            && (s.worker.Failing? ==>
                  && (t.rows[id].state == Queued <==> s.worker.again)
                  && (t.rows[id].state == Failed <==> !s.worker.again)
                  && t.rows[id].txid == s.rows[id].txid && t.rows[id].tokenValue == s.rows[id].tokenValue)
  {
  }
}

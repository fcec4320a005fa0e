/** The HTTP handlers that create and steer withdrawals (http.rs). Each runs as one atomic step here; the
    interleaved reading of the same rows is in WithdrawalProtocol. */
module Admission {
  import opened Prelude
  import opened Redemption
  import opened Withdrawals

  datatype TokenField = Absent | Malformed | Parsed(token: Token)

  datatype Request = Request(amount: u64, addressGiven: bool, token: TokenField, createRequest: bool,
                             createInvoice: bool)

  /** A Lightning quote obtained for the invoice. */
  datatype Quote = Quote(id: string, expiresAt: Option<int>)

  datatype Settings = Settings(
    normalMode: bool, minimum: u64, feeBuffer: u64, ratio: CapRatio, mintConfigured: bool, baseUrlConfigured: bool)

  datatype Refusal =
    | WrongMode | ZeroAmount | BelowMinimum | NoAddress | NoFunding | SeveralFundings | NoWallet | Depleted
    | OverCap | BadToken | TokenTooSmall | NotConfigured | TooLarge | QuoteFailed

  function Variants(req: Request): nat {
    (if req.token != Absent then 1 else 0) + (if req.createRequest then 1 else 0) + (if req.createInvoice then 1 else 0)
  }

  /** What the request needs, apart from capacity. */
  predicate WellFormed(req: Request, s: Settings, quote: Option<Quote>) {
    && s.normalMode && 0 < req.amount && s.minimum <= req.amount && req.addressGiven && Variants(req) == 1
    && (req.token != Absent ==> req.token.Parsed? && req.token.token.value >= req.amount)
    && (req.createRequest ==> s.mintConfigured && s.baseUrlConfigured && req.amount + s.feeBuffer <= U64_MAX)
    && (req.createInvoice ==> s.mintConfigured && req.amount + s.feeBuffer <= U64_MAX && quote.Some?)
  }

  function NewRow(req: Request, requestId: string, quote: Option<Quote>): Withdrawal {
    var blank :=
      Withdrawal(Queued, Some(req.amount), None, None, false, None, None, None, 0, None, None, None, None, None);
    match req.token
    case Parsed(token) => blank.(token := Some(token))
    case _ =>
      if req.createRequest then blank.(state := Funding, requestId := Some(requestId))
      else if quote.Some?
      then blank.(state := Funding, lightningQuote := Some(quote.value.id), invoiceExpiresAt := quote.value.expiresAt)
      else blank
  }

  /** A request is in order exactly when it comes with one way of funding it, and that one is complete: a token worth at
      least the amount, a request for a token to be paid to a known address, or an invoice the mint has issued. */
  lemma WellFormedExactly(req: Request, s: Settings, quote: Option<Quote>)
    ensures WellFormed(req, s, quote)
       <==> && s.normalMode && req.addressGiven && 0 < req.amount && s.minimum <= req.amount
            && match req.token
               case Malformed => false
               case Parsed(token) => req.amount <= token.value && !req.createRequest && !req.createInvoice
               case Absent =>
                 && s.mintConfigured && req.amount + s.feeBuffer <= U64_MAX
                 && if req.createRequest then s.baseUrlConfigured && !req.createInvoice
                    else req.createInvoice && quote.Some?
  {
  }

  /** With a token a withdrawal is queued at once; otherwise it waits for the token or the invoice asked for. */
  lemma NewRowExactly(req: Request, s: Settings, requestId: string, quote: Option<Quote>)
    requires WellFormed(req, s, quote)
    ensures var w := NewRow(req, requestId, quote);
            && w.requested == Some(req.amount) && !w.tokenConsumed && w.attempts == 0
            && w.tokenValue.None? && w.swapFee.None? && w.txid.None? && w.error.None?
            && w.requestFulfilledAt.None? && w.invoicePaidAt.None?
            && (w.state == if req.token.Parsed? then Queued else Funding)
            && (w.token == if req.token.Parsed? then Some(req.token.token) else None)
            && (w.requestId == if req.createRequest then Some(requestId) else None)
            && (req.createInvoice ==>
                  w.lightningQuote == Some(quote.value.id) && w.invoiceExpiresAt == quote.value.expiresAt)
            && (req.token.Parsed? ==> w.lightningQuote.None? && w.invoiceExpiresAt.None?)
            && (req.createRequest ==> w.lightningQuote.None? && w.invoiceExpiresAt.None?)
  {
  }

  /** Capacity left to one new request. */
  function RequestCap(rows: seq<Withdrawal>, rawOnchain: u64, ratio: CapRatio): nat {
    Cap(SatSub(rawOnchain, ReservedTotal(rows)), ratio)
  }

  /** A request is within the cap exactly when its share of what is not reserved allows it. */
  lemma RequestCapExactly(rows: seq<Withdrawal>, rawOnchain: u64, ratio: CapRatio, amount: nat)
    requires 0 < amount
    ensures amount <= RequestCap(rows, rawOnchain, ratio)
       <==> amount * ratio.den <= (rawOnchain - ReservedTotal(rows)) * ratio.num
  {
    CapExactly(SatSub(rawOnchain, ReservedTotal(rows)), ratio, amount);
    if rawOnchain < ReservedTotal(rows) {
      MulSign(rawOnchain - ReservedTotal(rows), ratio.num);
      MulMonotone(amount, 1, ratio.den);
    }
  }

  lemma MulSign(x: int, y: nat)
    requires x <= 0
    ensures x * y <= 0
  {
    assert (-x) * y >= 0;
  }

  method RequestWithdrawal(table: WithdrawalTable, req: Request, s: Settings, rawOnchain: Option<u64>,
                           quote: Option<Quote>, requestId: string)
    returns (r: Result<nat, Refusal>)
    modifies table
    ensures r.Ok? <==> WellFormed(req, s, quote) && rawOnchain.Some?
                       && req.amount <= RequestCap(old(table.rows), rawOnchain.value, s.ratio)
    ensures r.Ok? ==> r.value == |old(table.rows)| && table.rows == old(table.rows) + [NewRow(req, requestId, quote)]
    ensures r.Ok? ==> ReservedTotal(old(table.rows)) + req.amount <= rawOnchain.value
    ensures r.Err? ==> table.rows == old(table.rows)
  {
    if !s.normalMode { return Err(WrongMode); }
    if req.amount == 0 { return Err(ZeroAmount); }
    if req.amount < s.minimum { return Err(BelowMinimum); }
    if !req.addressGiven { return Err(NoAddress); }
    if Variants(req) == 0 { return Err(NoFunding); }
    if Variants(req) > 1 { return Err(SeveralFundings); }
    if rawOnchain.None? { return Err(NoWallet); }
    var cap := RequestCap(table.rows, rawOnchain.value, s.ratio);
    CapAtMostAvailable(SatSub(rawOnchain.value, ReservedTotal(table.rows)), s.ratio);
    if cap == 0 { return Err(Depleted); }
    if req.amount > cap { return Err(OverCap); }
    match req.token {
      case Malformed => return Err(BadToken);
      case Parsed(token) => if token.value < req.amount { return Err(TokenTooSmall); }
      case Absent =>
        if !s.mintConfigured || (req.createRequest && !s.baseUrlConfigured) { return Err(NotConfigured); }
        if CheckedAdd(req.amount, s.feeBuffer).None? { return Err(TooLarge); }
        if req.createInvoice && quote.None? { return Err(QuoteFailed); }
    }
    var id := table.Insert(NewRow(req, requestId, if req.createInvoice then quote else None));
    assert NewRow(req, requestId, if req.createInvoice then quote else None) == NewRow(req, requestId, quote);
    r := Ok(id);
  }

  /** A NUT-18 payment for a withdrawal. `payload` is the decoded token, `payloadId` the request id it names. */
  method SubmitPaymentRequest(table: WithdrawalTable, id: nat, payload: Option<Token>, payloadId: Option<string>,
                              expired: bool, rawOnchain: u64, ratio: CapRatio, now: int)
    returns (accepted: bool)
    modifies table
    ensures accepted <==>
              && id < |old(table.rows)|
              && PaymentMatches(old(table.rows)[id], payload, payloadId, expired)
              && Fits(old(table.rows), id, payload.value.value, rawOnchain, ratio)
    ensures table.rows == if accepted then old(table.rows)[id := TokenRecorded(old(table.rows)[id], payload.value, now)]
                          else old(table.rows)
  {
    accepted := false;
    if id >= |table.rows| || !PaymentMatches(table.rows[id], payload, payloadId, expired) { return; }
    var outcome := table.RecordPaymentRequestTokenLocked(id, payload.value, rawOnchain, ratio, now);
    accepted := outcome == Some(Recorded);
  }

  /** The checks of the handler before the locked write. */
  predicate PaymentMatches(w: Withdrawal, payload: Option<Token>, payloadId: Option<string>, expired: bool) {
    && w.state == Funding && w.requestFulfilledAt.None? && w.requestId.Some? && payloadId == w.requestId
    && !expired && payload.Some? && (w.requested.Some? ==> w.requested.value <= payload.value.value)
  }

  datatype Action = MarkSettled(txid: Option<string>) | MarkFailed(reason: string) | Requeue | Archive

  /** Whether the state of the row, as the handler read it, allows the action. */
  predicate Permitted(w: Withdrawal, a: Action) {
    match a
    case MarkSettled(_) => w.state != Settled && w.state != Funding
    case MarkFailed(_) => w.state != Settled
    case Requeue => w.state == Failed || w.state == Broadcasting || w.state == Confirming
    case Archive => w.state == Failed || w.state == Funding
  }

  /** The unguarded write of an action to a row that was read as `seen`. */
  function Written(row: Withdrawal, seen: Withdrawal, a: Action): Withdrawal {
    match a
    case MarkSettled(txid) => ManualUpdate(row, Settled, Coalesce(txid, seen.txid), None, false)
    case MarkFailed(reason) => ManualUpdate(row, Failed, seen.txid, Some(reason), false)
    case Requeue => ManualUpdate(row, Queued, seen.txid, None, true)
    case Archive => ManualUpdate(row, ArchivedByOperator, seen.txid, seen.error, false)
  }

  /** The row an operator action leaves, or None when the state of the row forbids it. */
  function Operated(w: Withdrawal, a: Action): Option<Withdrawal> {
    if Permitted(w, a) then Some(Written(w, w, a)) else None
  }

  /** What the operator may do, and what it writes: the state, the txid, the error, and on a requeue the attempts. */
  lemma OperatorExactly(w: Withdrawal, seen: Withdrawal, a: Action)
    ensures Permitted(seen, a) <==>
              match a
              case MarkSettled(_) => seen.state in {Queued, Broadcasting, Confirming, Failed, ArchivedByOperator}
              case MarkFailed(_) =>
                seen.state in {Funding, Queued, Broadcasting, Confirming, Failed, ArchivedByOperator}
              case Requeue => seen.state in {Broadcasting, Confirming, Failed}
              case Archive => seen.state in {Funding, Failed}
    ensures var t := Written(w, seen, a);
            && t == w.(state := t.state, txid := t.txid, error := t.error, attempts := t.attempts)
            && (t.attempts == if a.Requeue? then 0 else w.attempts)
            && (t.txid == if a.MarkSettled? && a.txid.Some? then a.txid else seen.txid)
            && match a
               case MarkSettled(_) => t.state == Settled && t.error == None
               case MarkFailed(reason) => t.state == Failed && t.error == Some(reason)
               case Requeue => t.state == Queued && t.error == None
               case Archive => t.state == ArchivedByOperator && t.error == seen.error
  {
  }

  method OperateWithdrawal(table: WithdrawalTable, id: nat, a: Action) returns (done: bool)
    modifies table
    ensures done <==> id < |old(table.rows)| && Operated(old(table.rows)[id], a).Some?
    ensures table.rows == if done then old(table.rows)[id := Operated(old(table.rows)[id], a).value]
                          else old(table.rows)
  {
    done := false;
    if id >= |table.rows| { return; }
    var w := table.rows[id];
    match a {
      case MarkSettled(txid) =>
        if w.state == Settled || w.state == Funding { return; }
        done := table.ManualUpdateState(id, Settled, if txid.Some? then txid else w.txid, None, false);
      case MarkFailed(reason) =>
        if w.state == Settled { return; }
        done := table.ManualUpdateState(id, Failed, w.txid, Some(reason), false);
      case Requeue =>
        if !(w.state in {Failed, Broadcasting, Confirming}) { return; }
        done := table.ManualUpdateState(id, Queued, w.txid, None, true);
      case Archive =>
        if !(w.state in {Failed, Funding}) { return; }
        done := table.ManualUpdateState(id, ArchivedByOperator, w.txid, w.error, false);
    }
  }

  datatype TxStatus = Pending | Confirmed

  /** One pass of the settlement watcher over a row. */
  function Watched(w: Withdrawal, status: Option<TxStatus>): Withdrawal {
    if (w.state != Broadcasting && w.state != Confirming) || w.txid.None? || status.None? then w
    else match status.value
      case Pending => if w.state == Broadcasting then ChainState(w, Confirming) else w
      case Confirmed => ChainState(w, Settled)
  }

  /** The watcher moves a broadcast withdrawal on when its transaction is seen, and settles a tracked one when it has
      confirmed; everything else it leaves. */
  lemma WatchedExactly(w: Withdrawal, status: Option<TxStatus>)
    ensures var t, tracked := Watched(w, status), w.txid.Some? && w.state in {Broadcasting, Confirming};
            && t == w.(state := t.state)
            && (t.state == Settled <==> w.state == Settled || (tracked && status == Some(Confirmed)))
            && (t.state == Confirming <==>
                  (w.state == Confirming && !(tracked && status == Some(Confirmed)))
                  || (w.state == Broadcasting && tracked && status == Some(Pending)))
            && (t.state != Settled && t.state != Confirming ==> t == w)
  {
  }

  method ProcessSettlements(table: WithdrawalTable, status: string -> Option<TxStatus>)
    modifies table
    ensures |table.rows| == |old(table.rows)|
    ensures forall i :: 0 <= i < |table.rows| ==>
              var w := old(table.rows)[i];
              table.rows[i] == Watched(w, if w.txid.Some? then status(w.txid.value) else None)
  {
    var tracked := table.rows;
    for i := 0 to |tracked|
      invariant |table.rows| == |tracked| && tracked == old(table.rows)
      invariant forall k :: i <= k < |tracked| ==> table.rows[k] == tracked[k]
      invariant forall k :: 0 <= k < i ==>
                  var w := tracked[k];
                  table.rows[k] == Watched(w, if w.txid.Some? then status(w.txid.value) else None)
    {
      var w := tracked[i];
      if w.state != Broadcasting && w.state != Confirming { continue; }
      if w.txid.None? { continue; }
      match status(w.txid.value) {
        case None =>
        case Some(Pending) =>
          if w.state == Broadcasting { var _ := table.UpdateChainState(i, Confirming); }
        case Some(Confirmed) =>
          if w.state != Settled { var _ := table.UpdateChainState(i, Settled); }
      }
    }
  }
}

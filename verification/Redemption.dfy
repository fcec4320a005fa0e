/** Redemption of a Cashu token and the check that bounds what a redemption may lose (workers/withdrawal.rs). */
module Redemption {
  import opened Prelude
  import Swap

  datatype Token = Token(text: string, mint: string, value: u64)

  datatype Redeemed = Redeemed(amount: u64, swapFee: Option<u64>)

  /** validate_redemption succeeds. */
  predicate ValidRedemption(requested: Option<u64>, redeemed: u64, swapFee: Option<u64>) {
    && requested.Some?
    && redeemed != 0 && requested.value != 0
    && (redeemed < requested.value ==>
          && Swap.ValidConversion(requested.value, redeemed)
          && swapFee == Some(requested.value - redeemed))
  }

  /** A canonical token is received as it is; a foreign one goes through the swap. Whatever the mints reply, the
      recorded fee is the value missing from the token, and a foreign redemption stays within the loss limit. */
  method Redeem(token: Token, canonicalMint: string, received: Option<u64>, env: Swap.Environment)
    returns (r: Option<Redeemed>)
    ensures r.Some? ==> r.value.swapFee == Some(SatSub(token.value, r.value.amount))
    ensures token.mint == canonicalMint ==>
              (r.Some? <==> received.Some?) && (r.Some? ==> r.value.amount == received.value)
    ensures token.mint != canonicalMint && r.Some? ==>
              Swap.ValidConversion(token.value, r.value.amount) && env.minted == Some(r.value.amount)
    ensures token.mint != canonicalMint ==> (r.Some? <==> Swap.Succeeds(token.value, Some(token.value), env))
  {
    if token.mint == canonicalMint {
      match received {
        case None => return None;
        case Some(amount) => return Some(Redeemed(amount, Some(SatSub(token.value, amount))));
      }
    }
    ghost var next;
    var outcome, quoted, paid;
    outcome, quoted, paid, next := Swap.SwapToCanonical(token.value, Some(token.value), env);
    if outcome.Err? { return None; }
    r := Some(Redeemed(outcome.value, Some(SatSub(token.value, outcome.value))));
  }

  /** The amount sent on chain. */
  function Payout(redeemed: nat, requested: nat): nat { Min(redeemed, requested) }

  /** A validated redemption pays something, never more than was asked or redeemed, and loses at most a twentieth. */
  lemma PayoutBounds(requested: u64, redeemed: u64, swapFee: Option<u64>)
    requires ValidRedemption(Some(requested), redeemed, swapFee)
    ensures 0 < Payout(redeemed, requested) <= requested
    ensures Payout(redeemed, requested) <= redeemed
    ensures requested - Payout(redeemed, requested) <= requested / 20
    ensures requested < 20 ==> Payout(redeemed, requested) == requested
  {
  }

  /** Admission guarantees a token worth at least the request. Redeeming such a token for less than the request
      passes exactly when the token was worth the request to the satoshi and the loss is within the limit: an
      over-funded token that comes up short is always refused, however small the shortfall. */
  lemma ShortfallAcceptedExactly(token: Token, requested: u64, redeemed: u64)
    requires token.value >= requested
    requires redeemed < requested
    ensures ValidRedemption(Some(requested), redeemed, Some(SatSub(token.value, redeemed)))
       <==> token.value == requested && Swap.ValidConversion(requested, redeemed)
  {
  }
}

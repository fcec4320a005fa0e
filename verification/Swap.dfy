/** Conversion of a foreign token into the canonical mint (wallet/swap.rs). */
module Swap {
  import opened Prelude

  const MAX_MELT_FEE_REDUCTIONS: nat := 32

  /** The five percent ceiling on the value lost in a conversion. */
  predicate ValidConversion(original: u64, converted: u64) {
    !(original == 0 || converted == 0 || converted > original || original - converted > original / 20)
  }

  /** A conversion yields something, gains nothing and loses at most a twentieth. */
  lemma ValidConversionExactly(original: u64, converted: u64)
    ensures ValidConversion(original, converted)
       <==> 0 < converted <= original && 20 * (original - converted) <= original
  {
  }

  datatype SwapError =
    | AmountMismatch | ReceiveFailed | LossLimit | ProofsNotSpendable | QuoteFailed
    | InsufficientMelt | MeltFailed | MintFailed | CanonicalMismatch | NeverSucceeded

  /** Total of the captured proofs and the input fee the foreign mint charges for them. */
  datatype Spendable = Spendable(total: u64, inputFee: u64)

  datatype MeltReply = Paid | InsufficientFunds | Failed

  /** The replies of the two mints and of the foreign wallet during one call. Quote pairs are numbered in
      the order of the requests, so an oracle covers mints that answer each request as they please. */
  datatype Environment = Environment(
    receive: Option<u64>,                   // amount received from the token
    spendable: Option<Spendable>,           // the captured proofs, None when they are not all unspent
    reserve: (nat, u64) -> Option<u64>,     // fee reserve of the n-th quote pair, None when a request fails
    melt: MeltReply,
    minted: Option<u64>)                    // amount of the canonical proofs, None when minting fails

  /** The fee reserve never falls when the invoice grows. */
  ghost predicate MonotoneReserve(env: Environment) {
    forall i: nat, j: nat, a: u64, b: u64 ::
      env.reserve(i, a).Some? && env.reserve(j, b).Some? && a <= b ==>
        env.reserve(i, a).value <= env.reserve(j, b).value
  }

  /** A payment handed to the foreign mint. */
  datatype Payment = Payment(target: u64, reserve: u64, inputFee: u64)

  /** The first invoice asks for everything above the input fee; each later one takes off the reserve just quoted. */
  ghost predicate Shrinking(quoted: seq<u64>, original: u64, total: u64, inputFee: u64, env: Environment) {
    && (quoted != [] ==> quoted[0] == Min(SatSub(total, inputFee), original))
    && forall i | 0 <= i < |quoted| - 1 :: ReducedAt(quoted, i, total, inputFee, env)
  }

  ghost predicate ReducedAt(quoted: seq<u64>, i: nat, total: u64, inputFee: u64, env: Environment)
    requires i < |quoted| - 1
  {
    Reduced(quoted[i], quoted[i + 1], env.reserve(i, quoted[i]), total, inputFee)
  }

  ghost predicate Reduced(before: u64, after: u64, reserve: Option<u64>, total: u64, inputFee: u64) {
    && reserve.Some?
    && !Covered(Payment(before, reserve.value, inputFee), total)
    && after + reserve.value + inputFee == total
  }

  /** The saturating affordability check made before a payment. */
  predicate Covered(p: Payment, total: u64) {
    SatAdd(SatAdd(p.target, p.reserve), p.inputFee) <= total
  }

  /** The check means what it should, except at the single total at which saturation hides an overflow: proofs
      worth exactly u64::MAX would pass it whatever the reserve. */
  lemma CoveredMeaning(p: Payment, total: u64)
    ensures Covered(p, total) <==> p.target + p.reserve + p.inputFee <= total || total == U64_MAX
  {
    assert SatAdd(SatAdd(p.target, p.reserve), p.inputFee) == Min(p.target + p.reserve + p.inputFee, U64_MAX);
  }

  const GREEDY :=
    Environment(Some(U64_MAX), Some(Spendable(U64_MAX, 0)), (n: nat, target: u64) => Some(1), Paid, Some(U64_MAX))

  /** At that total a payment is attempted that takes one satoshi more than there is. */
  lemma SaturationOverspends()
    ensures Payable(U64_MAX, Some(U64_MAX), GREEDY) == Some(Payment(U64_MAX, 1, 0))
  {
    assert GREEDY.reserve(0, U64_MAX) == Some(1);
  }

  lemma ShrinkingExtends(quoted: seq<u64>, next: u64, original: u64, total: u64, inputFee: u64, env: Environment)
    requires Shrinking(quoted, original, total, inputFee, env)
    requires NextTarget(quoted, next, original, total, inputFee, env)
    ensures Shrinking(quoted + [next], original, total, inputFee, env)
  {
    forall i | 0 <= i < |quoted|
      ensures ReducedAt(quoted + [next], i, total, inputFee, env)
    {
      if i < |quoted| - 1 { assert ReducedAt(quoted, i, total, inputFee, env); }
    }
  }

  /** Hence the quoted targets strictly decrease. */
  lemma {:induction false} TargetsDecrease(quoted: seq<u64>, original: u64, total: u64, inputFee: u64,
                                           env: Environment, i: nat, j: nat)
    requires Shrinking(quoted, original, total, inputFee, env)
    requires i < j < |quoted|
    ensures quoted[j] < quoted[i]
  {
    assert ReducedAt(quoted, j - 1, total, inputFee, env);
    if i < j - 1 { TargetsDecrease(quoted, original, total, inputFee, env, i, j - 1); }
  }

  /** A third quote pair shows that the mint asked a larger reserve for a smaller invoice: against a monotone mint the
      second pair is the last. */
  lemma TwoSuffice(quoted: seq<u64>, original: u64, total: u64, inputFee: u64, env: Environment)
    requires Shrinking(quoted, original, total, inputFee, env)
    ensures |quoted| > 2 ==> quoted[1] < quoted[0] && !MonotoneReserve(env)
  {
    if |quoted| > 2 {
      assert ReducedAt(quoted, 0, total, inputFee, env) && ReducedAt(quoted, 1, total, inputFee, env);
      assert env.reserve(1, quoted[1]).value > env.reserve(0, quoted[0]).value;
    }
  }

  /** Even with saturating arithmetic the reduced target is strictly below the one that was too expensive, so
      the branch that guards against a stuck target is never taken. */
  lemma ReductionIsStrict(total: u64, inputFee: u64, reserve: u64, target: u64)
    requires target > 0
    requires SatAdd(SatAdd(target, reserve), inputFee) > total
    ensures Min(SatSub(total, SatAdd(inputFee, reserve)), target) < target
    ensures target + reserve + inputFee > total
    ensures SatSub(total, SatAdd(inputFee, reserve)) > 0 ==>
              Min(SatSub(total, SatAdd(inputFee, reserve)), target) + inputFee + reserve == total
  {
    assert total < U64_MAX;
    if inputFee + reserve > U64_MAX {
      assert SatSub(total, SatAdd(inputFee, reserve)) == 0;
    }
  }

  /** The payment fits in the proofs; at the largest total the code cannot tell (see CoveredMeaning). */
  predicate Affordable(p: Payment, total: u64) { p.target + p.reserve + p.inputFee <= total || total == U64_MAX }

  /** The payment that ought to be attempted from the n-th quote pair on, without saturation or fallbacks: the first
      invoice that is affordable at its quote, each one lowered to what the last quote left over, as long as the loss is
      acceptable. */
  function PaymentFrom(n: nat, target: nat, original: u64, total: u64, inputFee: u64, env: Environment): Option<Payment>
    decreases MAX_MELT_FEE_REDUCTIONS + 1 - n
  {
    if n > MAX_MELT_FEE_REDUCTIONS || target > original || !ValidConversion(original, target) then None else
      var reserve := env.reserve(n, target);
      if reserve.None? then None
      else if Affordable(Payment(target, reserve.value, inputFee), total)
      then Some(Payment(target, reserve.value, inputFee))
      else PaymentFrom(n + 1, SatSub(total, inputFee + reserve.value), original, total, inputFee, env)
  }

  function Payable(original: u64, expected: Option<u64>, env: Environment): Option<Payment> {
    if !Started(original, expected, env) then None else
      var Spendable(total, inputFee) := env.spendable.value;
      PaymentFrom(0, Min(SatSub(total, inputFee), original), original, total, inputFee, env)
  }

  /** The call succeeds exactly when the payment is made and the canonical mint issues that very amount. */
  predicate Succeeds(original: u64, expected: Option<u64>, env: Environment) {
    var paid := Payable(original, expected, env);
    paid.Some? && env.melt == Paid && env.minted == Some(paid.value.target)
  }

  /** A mint that asks the same reserve for every invoice; the token is received in full, and what is paid is issued. */
  ghost predicate Steady(original: u64, inputFee: u64, reserve: u64, env: Environment) {
    && env.receive == Some(original) && env.spendable == Some(Spendable(original, inputFee))
    && (forall n: nat, target: u64 :: env.reserve(n, target) == Some(reserve))
    && env.melt == Paid && env.minted == Some(SatSub(original, inputFee + reserve))
  }

  /** Against such a mint a conversion succeeds exactly when input fee and reserve together take no more than a
      twentieth, and then it pays all the rest. */
  lemma SteadyMintSucceeds(original: u64, inputFee: u64, reserve: u64, env: Environment)
    requires Steady(original, inputFee, reserve, env) && original < U64_MAX
    ensures Succeeds(original, Some(original), env)
       <==> inputFee + reserve < original && 20 * (inputFee + reserve) <= original
    ensures Succeeds(original, Some(original), env) ==>
              Payable(original, Some(original), env)
              == Some(Payment(original - inputFee - reserve, reserve, inputFee))
  {
    var first := SatSub(original, inputFee);
    assert env.reserve(0, first) == Some(reserve);
    if inputFee + reserve < original {
      var second: u64 := original - inputFee - reserve;
      assert env.reserve(1, second) == Some(reserve);
      assert PaymentFrom(1, second, original, original, inputFee, env)
          == if ValidConversion(original, second) then Some(Payment(second, reserve, inputFee)) else None;
    } else if reserve > 0 {
      assert PaymentFrom(1, 0, original, original, inputFee, env) == None;
    }
  }

  /** The answer to the last quote pair that ends the search. */
  predicate GivenUp(e: SwapError, target: u64, reserve: Option<u64>, env: Environment) {
    || (e == QuoteFailed && reserve.None?)
    || (e == InsufficientMelt && reserve.Some? && env.spendable.Some?
        && var Spendable(total, inputFee) := env.spendable.value;
           total <= inputFee + reserve.value && !Covered(Payment(target, reserve.value, inputFee), total))
  }

  /** The shrunk invoice, with the code's saturating steps and its guard against a stuck target. */
  method Lowered(target: u64, reserve: u64, inputFee: u64, total: u64) returns (next: u64)
    requires target > 0 && SatAdd(SatAdd(target, reserve), inputFee) > total
    ensures next == SatSub(total, inputFee + reserve) && next < target && target + reserve + inputFee > total
  {
    ReductionIsStrict(total, inputFee, reserve, target);
    next := Min(SatSub(total, SatAdd(inputFee, reserve)), target);
    var stepped: u64 := SatSub(target, Max(reserve, 1));
    if next >= target { next := stepped; }
  }

  datatype Attempt = Stop(error: SwapError) | Pay(payment: Payment) | Retry(next: u64)

  /** One quote pair: pay, ask for less, or give up. */
  method TryQuote(n: nat, target: u64, original: u64, total: u64, inputFee: u64, env: Environment)
    returns (step: Attempt)
    requires ValidConversion(original, target) && env.spendable == Some(Spendable(total, inputFee))
    ensures step.Stop? ==> GivenUp(step.error, target, env.reserve(n, target), env)
    ensures step.Pay? ==> Quoted(step.payment, n, target, total, inputFee, env)
    ensures step.Retry? ==> Reduced(target, step.next, env.reserve(n, target), total, inputFee)
  {
    var reply := env.reserve(n, target);
    if reply.None? { return Stop(QuoteFailed); }
    var reserve := reply.value;
    var needed := SatAdd(SatAdd(target, reserve), inputFee);
    if needed > total {
      var next := Lowered(target, reserve, inputFee, total);
      if next == 0 { return Stop(InsufficientMelt); }
      return Retry(next);
    }
    return Pay(Payment(target, reserve, inputFee));
  }

  /** The payment follows the n-th quote pair and is affordable. */
  predicate Quoted(p: Payment, n: nat, target: u64, total: u64, inputFee: u64, env: Environment) {
    p.target == target && p.inputFee == inputFee && env.reserve(n, target) == Some(p.reserve) && Covered(p, total)
  }

  /** `next` is the invoice to ask for after the quoted ones. */
  ghost predicate NextTarget(quoted: seq<u64>, next: u64, original: u64, total: u64, inputFee: u64, env: Environment) {
    if quoted == [] then next == Min(SatSub(total, inputFee), original)
    else Reduced(quoted[|quoted| - 1], next, env.reserve(|quoted| - 1, quoted[|quoted| - 1]), total, inputFee)
  }

  predicate AllValid(quoted: seq<u64>, original: u64) {
    forall i :: 0 <= i < |quoted| ==> ValidConversion(original, quoted[i])
  }

  /** The outcome of the search. */
  ghost predicate Concluded(r: Result<Payment, SwapError>, quoted: seq<u64>, next: u64,
                            original: u64, total: u64, inputFee: u64, env: Environment)
  {
    match r
    case Ok(p) => quoted != [] && Quoted(p, |quoted| - 1, quoted[|quoted| - 1], total, inputFee, env)
    case Err(LossLimit) => NextTarget(quoted, next, original, total, inputFee, env) && !ValidConversion(original, next)
    case Err(NeverSucceeded) =>
      NextTarget(quoted, next, original, total, inputFee, env) && |quoted| == MAX_MELT_FEE_REDUCTIONS + 1
    case Err(e) =>
      quoted != [] && GivenUp(e, quoted[|quoted| - 1], env.reserve(|quoted| - 1, quoted[|quoted| - 1]), env)
  }

  /** The loop up to the payment: `quoted` lists the invoice amounts for which a quote pair was requested, `next` is the
      one that would have been asked for after them. */
  method Negotiate(original: u64, total: u64, inputFee: u64, env: Environment)
    returns (r: Result<Payment, SwapError>, quoted: seq<u64>, ghost next: u64)
    requires env.spendable == Some(Spendable(total, inputFee))
    ensures |quoted| <= MAX_MELT_FEE_REDUCTIONS + 1
    ensures AllValid(quoted, original) && Shrinking(quoted, original, total, inputFee, env)
    ensures Concluded(r, quoted, next, original, total, inputFee, env)
  {
    quoted := [];
    var target: u64 := Min(SatSub(total, inputFee), original);
    next := target;
    for attempt := 0 to MAX_MELT_FEE_REDUCTIONS + 1
      invariant |quoted| == attempt && next == target
      invariant AllValid(quoted, original) && Shrinking(quoted, original, total, inputFee, env)
      invariant NextTarget(quoted, target, original, total, inputFee, env)
    {
      if !ValidConversion(original, target) { return Err(LossLimit), quoted, next; }
      ShrinkingExtends(quoted, target, original, total, inputFee, env);
      quoted := quoted + [target];
      var step := TryQuote(attempt, target, original, total, inputFee, env);
      match step {
        case Stop(e) => return Err(e), quoted, next;
        case Pay(p) => return Ok(p), quoted, next;
        case Retry(less) => target, next := less, less;
      }
    }
    r := Err(NeverSucceeded);
  }

  /** Quote by quote, the search follows the reference. */
  lemma {:induction false} FollowsReference(quoted: seq<u64>, k: nat, original: u64, total: u64, inputFee: u64,
                                            env: Environment)
    requires Shrinking(quoted, original, total, inputFee, env) && AllValid(quoted, original)
    requires k < |quoted| <= MAX_MELT_FEE_REDUCTIONS + 1
    ensures PaymentFrom(0, quoted[0], original, total, inputFee, env)
        == PaymentFrom(k, quoted[k], original, total, inputFee, env)
  {
    if k > 0 {
      FollowsReference(quoted, k - 1, original, total, inputFee, env);
      assert ReducedAt(quoted, k - 1, total, inputFee, env);
      ReferenceReduces(k - 1, quoted[k - 1], quoted[k], original, total, inputFee, env);
    }
  }

  lemma ReferenceReduces(n: nat, target: u64, next: u64, original: u64, total: u64, inputFee: u64, env: Environment)
    requires n <= MAX_MELT_FEE_REDUCTIONS && ValidConversion(original, target)
    requires Reduced(target, next, env.reserve(n, target), total, inputFee)
    ensures PaymentFrom(n, target, original, total, inputFee, env)
        == PaymentFrom(n + 1, next, original, total, inputFee, env)
  {
    CoveredMeaning(Payment(target, env.reserve(n, target).value, inputFee), total);
  }

  /** Where the search ends, so does the reference. */
  lemma ReferenceConcludes(r: Result<Payment, SwapError>, quoted: seq<u64>, next: u64,
                           original: u64, total: u64, inputFee: u64, env: Environment)
    requires env.spendable == Some(Spendable(total, inputFee)) && |quoted| <= MAX_MELT_FEE_REDUCTIONS + 1
    requires AllValid(quoted, original) && Shrinking(quoted, original, total, inputFee, env)
    requires Concluded(r, quoted, next, original, total, inputFee, env)
    ensures PaymentFrom(0, Min(SatSub(total, inputFee), original), original, total, inputFee, env)
         == if r.Ok? then Some(r.value) else None
  {
    if quoted != [] {
      var n := |quoted| - 1;
      FollowsReference(quoted, n, original, total, inputFee, env);
      var reserve := env.reserve(n, quoted[n]);
      if reserve.Some? { CoveredMeaning(Payment(quoted[n], reserve.value, inputFee), total); }
      if r.Err? && (r.error == LossLimit || r.error == NeverSucceeded) {
        ReferenceReduces(n, quoted[n], next, original, total, inputFee, env);
      }
    }
  }

  /** The one payment and the issue that follows it. */
  function Settlement(payment: Payment, env: Environment): Result<u64, SwapError> {
    match env.melt
    case Paid =>
      if env.minted.None? then Err(MintFailed)
      else if env.minted.value != payment.target then Err(CanonicalMismatch)
      else Ok(payment.target)
    case InsufficientFunds => Err(InsufficientMelt)
    case Failed => Err(MeltFailed)
  }

  /** Everything before the search accepts. */
  predicate Started(original: u64, expected: Option<u64>, env: Environment) {
    && (expected.Some? ==> expected.value == original)
    && env.receive.Some? && ValidConversion(original, env.receive.value) && env.spendable.Some?
  }

  /** The first check that fails before the search. */
  function Refusal(original: u64, expected: Option<u64>, env: Environment): SwapError
    requires !Started(original, expected, env)
  {
    if expected.Some? && expected.value != original then AmountMismatch
    else if env.receive.None? then ReceiveFailed
    else if !ValidConversion(original, env.receive.value) then LossLimit
    else ProofsNotSpendable
  }

  /** Nothing is negotiated exactly when the amount announced is not that of the token, nothing was received, too much
      was lost in receiving, or the proofs are not spendable; the first of these in this order is the error. */
  lemma RefusedExactly(original: u64, expected: Option<u64>, env: Environment)
    ensures var mismatch := expected.Some? && expected.value != original;
            var lost := env.receive.Some? && !(0 < env.receive.value <= original
                                               && 20 * (original - env.receive.value) <= original);
            && (Started(original, expected, env) <==>
                  !mismatch && env.receive.Some? && !lost && env.spendable.Some?)
            && (!Started(original, expected, env) ==>
                  var e := Refusal(original, expected, env);
                  && (e == AmountMismatch <==> mismatch)
                  && (e == ReceiveFailed <==> !mismatch && env.receive.None?)
                  && (e == LossLimit <==> !mismatch && lost)
                  && (e == ProofsNotSpendable <==> !mismatch && env.receive.Some? && !lost))
  {
    if env.receive.Some? { ValidConversionExactly(original, env.receive.value); }
  }

  /** A whole call, quote pair by quote pair. */
  ghost predicate Converted(r: Result<u64, SwapError>, quoted: seq<u64>, paid: Option<Payment>, next: u64,
                            original: u64, expected: Option<u64>, env: Environment)
  {
    if !Started(original, expected, env) then r == Err(Refusal(original, expected, env)) && quoted == [] && paid == None
    else
      var Spendable(total, inputFee) := env.spendable.value;
      && |quoted| <= MAX_MELT_FEE_REDUCTIONS + 1
      && AllValid(quoted, original) && Shrinking(quoted, original, total, inputFee, env)
      && if paid.Some? then
           && Concluded(Ok(paid.value), quoted, next, original, total, inputFee, env)
           && r == Settlement(paid.value, env)
         else r.Err? && Concluded(Err(r.error), quoted, next, original, total, inputFee, env)
  }

  lemma ConvertedPays(r: Result<u64, SwapError>, quoted: seq<u64>, paid: Option<Payment>, next: u64,
                      original: u64, expected: Option<u64>, env: Environment)
    requires Converted(r, quoted, paid, next, original, expected, env)
    ensures paid == Payable(original, expected, env)
  {
    if Started(original, expected, env) {
      var Spendable(total, inputFee) := env.spendable.value;
      var outcome := if paid.Some? then Ok(paid.value) else Err(r.error);
      ReferenceConcludes(outcome, quoted, next, original, total, inputFee, env);
    }
  }

  lemma ConvertedSucceeds(r: Result<u64, SwapError>, quoted: seq<u64>, paid: Option<Payment>, next: u64,
                          original: u64, expected: Option<u64>, env: Environment)
    requires Converted(r, quoted, paid, next, original, expected, env)
    ensures r.Ok? <==> paid.Some? && env.melt == Paid && env.minted == Some(paid.value.target)
    ensures r.Ok? ==> r.value == paid.value.target && ValidConversion(original, r.value)
  {
  }

  /** What an error says about the replies; before a payment it is the answer to the last quote pair, or the loss the
      next invoice would mean. */
  ghost predicate Explains(e: SwapError, quoted: seq<u64>, paid: Option<Payment>, next: u64,
                           original: u64, expected: Option<u64>, env: Environment)
  {
    if !Started(original, expected, env) then e == Refusal(original, expected, env)
    else
      var Spendable(total, inputFee) := env.spendable.value;
      if paid.Some? then
        || (e == InsufficientMelt && env.melt == InsufficientFunds)
        || (e == MeltFailed && env.melt == Failed)
        || (e == MintFailed && env.melt == Paid && env.minted.None?)
        || (e == CanonicalMismatch && env.melt == Paid && env.minted.Some? && env.minted.value != paid.value.target)
      else
        || (e == LossLimit && NextTarget(quoted, next, original, total, inputFee, env)
             && !ValidConversion(original, next))
        || (e == NeverSucceeded && NextTarget(quoted, next, original, total, inputFee, env)
            && |quoted| == MAX_MELT_FEE_REDUCTIONS + 1)
        || (quoted != [] && GivenUp(e, quoted[|quoted| - 1], env.reserve(|quoted| - 1, quoted[|quoted| - 1]), env))
  }

  lemma ConvertedExplains(r: Result<u64, SwapError>, quoted: seq<u64>, paid: Option<Payment>, next: u64,
                          original: u64, expected: Option<u64>, env: Environment)
    requires Converted(r, quoted, paid, next, original, expected, env) && r.Err?
    ensures Explains(r.error, quoted, paid, next, original, expected, env)
  {
  }

  /** The payment is the last quote asked for, and the proofs cover it, input fee and reserve included. */
  lemma ConvertedAffords(r: Result<u64, SwapError>, quoted: seq<u64>, paid: Option<Payment>, next: u64,
                         original: u64, expected: Option<u64>, env: Environment)
    requires Converted(r, quoted, paid, next, original, expected, env) && paid.Some?
    ensures env.spendable.Some? && quoted != [] && paid.value.target == quoted[|quoted| - 1]
    ensures env.reserve(|quoted| - 1, paid.value.target) == Some(paid.value.reserve)
    ensures paid.value.inputFee == env.spendable.value.inputFee
    ensures Affordable(paid.value, env.spendable.value.total)
  {
    CoveredMeaning(paid.value, env.spendable.value.total);
  }

  lemma ConvertedInTwo(r: Result<u64, SwapError>, quoted: seq<u64>, paid: Option<Payment>, next: u64,
                       original: u64, expected: Option<u64>, env: Environment)
    requires Converted(r, quoted, paid, next, original, expected, env) && MonotoneReserve(env)
    ensures |quoted| <= 2
  {
    if Started(original, expected, env) {
      TwoSuffice(quoted, original, env.spendable.value.total, env.spendable.value.inputFee, env);
    }
  }

  method Settle(payment: Payment, env: Environment) returns (r: Result<u64, SwapError>)
    ensures r == Settlement(payment, env)
  {
    match env.melt {
      case Paid =>
        if env.minted.None? { return Err(MintFailed); }
        if env.minted.value != payment.target { return Err(CanonicalMismatch); }
        return Ok(payment.target);
      case InsufficientFunds => return Err(InsufficientMelt);
      case Failed => return Err(MeltFailed);
    }
  }

  method Convert(original: u64, expected: Option<u64>, env: Environment)
    returns (r: Result<u64, SwapError>, quoted: seq<u64>, paid: Option<Payment>, ghost next: u64)
    ensures Converted(r, quoted, paid, next, original, expected, env)
  {
    quoted, paid, next := [], None, 0;
    if expected.Some? && expected.value != original { return Err(AmountMismatch), quoted, paid, next; }
    if env.receive.None? { return Err(ReceiveFailed), quoted, paid, next; }
    if !ValidConversion(original, env.receive.value) { return Err(LossLimit), quoted, paid, next; }
    if env.spendable.None? { return Err(ProofsNotSpendable), quoted, paid, next; }
    var Spendable(total, inputFee) := env.spendable.value;
    var payment;
    payment, quoted, next := Negotiate(original, total, inputFee, env);
    if payment.Err? { return Err(payment.error), quoted, paid, next; }
    paid := Some(payment.value);
    r := Settle(payment.value, env);
  }

  /** The whole conversion; `paid` is the one payment that was attempted, if any. */
  method SwapToCanonical(original: u64, expected: Option<u64>, env: Environment)
    returns (r: Result<u64, SwapError>, quoted: seq<u64>, paid: Option<Payment>, ghost next: u64)
    ensures Converted(r, quoted, paid, next, original, expected, env)
    ensures paid == Payable(original, expected, env)
    ensures r.Ok? <==> Succeeds(original, expected, env)
    ensures r.Ok? ==> r.value == paid.value.target && ValidConversion(original, r.value)
    ensures r.Err? ==> Explains(r.error, quoted, paid, next, original, expected, env)
    ensures paid.Some? ==> env.spendable.Some? && Affordable(paid.value, env.spendable.value.total)
  {
    r, quoted, paid, next := Convert(original, expected, env);
    ConvertedPays(r, quoted, paid, next, original, expected, env);
    ConvertedSucceeds(r, quoted, paid, next, original, expected, env);
    if r.Err? { ConvertedExplains(r, quoted, paid, next, original, expected, env); }
    if paid.Some? { ConvertedAffords(r, quoted, paid, next, original, expected, env); }
  }
}

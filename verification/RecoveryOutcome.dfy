/** What a recovery run comes to when the mints behave (bin/m5_recover.rs). */
module RecoveryOutcome {
  import opened Prelude
  import opened ForeignWallet
  import opened Recovery

  /** The reserve a quote pair asks, if both mints answer. */
  function ReserveOf(w: World, round: nat, attempt: nat): Option<u64> {
    var reply := w.quotes(round, attempt);
    if reply.canonical.Some? && reply.foreign.Some? then Some(reply.foreign.value.reserve) else None
  }

  predicate Asks(w: World, round: nat, attempt: nat, reserve: u64) { ReserveOf(w, round, attempt) == Some(reserve) }

  lemma Targets(total: u64, inputFee: u64, reserve: u64)
    ensures var t := PaymentTarget(total, inputFee, reserve);
            if inputFee + reserve < total then t == Some(total - inputFee - reserve) else t == None
  {
    if inputFee + reserve < total {
      PaymentTargetExactly(total, inputFee, reserve, total - inputFee - reserve);
    } else {
      var t := PaymentTarget(total, inputFee, reserve);
      if t.Some? { PaymentTargetExactly(total, inputFee, reserve, t.value); }
    }
  }

  /** The invoice that is paid: everything above the input fee, or what the reserve of the pair before it left. */
  predicate Fitted(w: World, round: nat, attempt: nat, quoted: Quoted, total: u64) {
    && attempt < QUOTES_PER_ROUND && Asks(w, round, attempt, quoted.reserve)
    && 0 < quoted.amount && quoted.amount + quoted.inputFee + quoted.reserve <= total
    && if attempt == 0 then quoted.amount + quoted.inputFee == total
       else
         var before := ReserveOf(w, round, attempt - 1);
         before.Some? && quoted.amount + quoted.inputFee + before.value == total
  }

  /** The target of an attempt is what the pair before it left. */
  predicate LeftOver(w: World, round: nat, attempt: nat, target: u64, total: u64, inputFee: u64) {
    && 0 < target
    && if attempt == 0 then target + inputFee == total
       else
         var before := ReserveOf(w, round, attempt - 1);
         before.Some? && target + inputFee + before.value == total
  }

  lemma {:induction false} SoughtIsFitted(w: World, round: nat, attempt: nat, target: u64, total: u64, inputFee: u64,
                                          credited: nat, live: u64, maxFee: u64)
    requires LeftOver(w, round, attempt, target, total, inputFee)
    ensures var choice := Sought(w, round, attempt, target, total, inputFee, credited, live, maxFee);
            choice.Chosen? ==>
              choice.quoted.inputFee == inputFee && exists k: nat :: Fitted(w, round, k, choice.quoted, total)
    decreases QUOTES_PER_ROUND - attempt
  {
    if attempt < QUOTES_PER_ROUND {
      var reply := w.quotes(round, attempt);
      if reply.canonical.Some? && reply.foreign.Some? {
        var reserve := reply.foreign.value.reserve;
        assert Asks(w, round, attempt, reserve);
        var next := PaymentTarget(total, inputFee, reserve);
        Targets(total, inputFee, reserve);
        if next.Some? && next.value < target {
          assert LeftOver(w, round, attempt + 1, next.value, total, inputFee);
          SoughtIsFitted(w, round, attempt + 1, next.value, total, inputFee, credited, live, maxFee);
        } else if next.Some? {
          var q := Quoted(reply.canonical.value, reply.foreign.value.melt, target, reserve, inputFee);
          assert Fitted(w, round, attempt, q, total);
        }
      }
    }
  }

  /** Whatever the mints ask, the invoice that is chosen takes everything above the input fee, or exactly what the
      reserve of the pair before it left, and fits at its own quote. */
  lemma ChosenIsFitted(w: World, round: nat, total: u64, inputFee: u64, credited: nat, live: u64, maxFee: u64)
    ensures var choice := ChoiceOf(w, round, total, inputFee, credited, live, maxFee);
            choice.Chosen? ==>
              choice.quoted.inputFee == inputFee && exists k: nat :: Fitted(w, round, k, choice.quoted, total)
  {
    Targets(total, inputFee, 0);
    var first := PaymentTarget(total, inputFee, 0);
    if first.Some? { SoughtIsFitted(w, round, 0, first.value, total, inputFee, credited, live, maxFee); }
  }

  /** Every pair of the round asks the same reserve. */
  ghost predicate Steady(w: World, round: nat, reserve: u64) {
    forall attempt: nat :: attempt < QUOTES_PER_ROUND ==> Asks(w, round, attempt, reserve)
  }

  /** The loss when this is paid and nothing comes back is within the budget. */
  predicate Bearable(credited: nat, amount: nat, live: u64, maxFee: u64) {
    credited + amount <= live && live <= credited + amount + maxFee
  }

  lemma SteadySecond(w: World, round: nat, attempt: nat, reserve: u64, total: u64, inputFee: u64, credited: nat,
                     live: u64, maxFee: u64)
    requires attempt < QUOTES_PER_ROUND && Asks(w, round, attempt, reserve) && inputFee + reserve < total
    ensures var amount := total - inputFee - reserve;
            var choice := Sought(w, round, attempt, amount, total, inputFee, credited, live, maxFee);
            if Bearable(credited, amount, live, maxFee)
            then choice.Chosen? && choice.quoted.amount == amount && choice.quoted.reserve == reserve
                 && choice.quoted.inputFee == inputFee
            else choice == Stopped(if credited + amount > U64_MAX then Overflow else BudgetBeforeMelt)
  {
    Targets(total, inputFee, reserve);
  }

  /** Against a mint that asks the same reserve every time, a round pays exactly what input fee and reserve leave if
      that is something and the loss is bearable; it stops over budget if the loss is not, and there is no quote
      otherwise. */
  lemma SteadyChoice(w: World, round: nat, reserve: u64, total: u64, inputFee: u64, credited: nat, live: u64,
                     maxFee: u64)
    requires Steady(w, round, reserve)
    ensures var choice := ChoiceOf(w, round, total, inputFee, credited, live, maxFee);
            if inputFee + reserve >= total then choice == NoQuote
            else
              var amount := total - inputFee - reserve;
              if Bearable(credited, amount, live, maxFee)
              then choice.Chosen? && choice.quoted.amount == amount && choice.quoted.reserve == reserve
                   && choice.quoted.inputFee == inputFee
              else choice == Stopped(if credited + amount > U64_MAX then Overflow else BudgetBeforeMelt)
  {
    Targets(total, inputFee, 0);
    Targets(total, inputFee, reserve);
    assert Asks(w, round, 0, reserve) && Asks(w, round, 1, reserve);
    if inputFee + reserve < total {
      SteadySecond(w, round, if reserve == 0 then 0 else 1, reserve, total, inputFee, credited, live, maxFee);
    }
  }

  /** Of the first thirty reports on the destination's quote, the first that is not `unpaid` decides; if there is none,
      the quote is not paid in time. */
  lemma FirstReportDecides(w: World, round: nat, k: nat)
    requires k <= 30 && forall j :: 0 <= j < k ==> w.status(round, j) == Some(Unpaid)
    requires k < 30 ==> w.status(round, k) != Some(Unpaid)
    ensures PaidInTime(w, round) <==> k < 30 && w.status(round, k) == Some(QuotePaid)
  {
  }

  /** A round leads to the next exactly when its inputs are unspent, an invoice is chosen, the payment is prepared and
      reported paid, the destination's quote is paid in time, it issues just the amount, unspent, and nothing is lost
      beyond the budget. */
  lemma AdvancesExactly(w: World, round: nat, inputs: seq<Proof>, credited: nat, live: u64, maxFee: u64, later: nat,
                        change: seq<Proof>)
    requires Total(inputs) <= U64_MAX
    ensures RoundOf(w, round, inputs, credited, live, maxFee) == Advanced(later, change)
       <==> && w.unspent(round) && w.inputFee(round).Some? && w.prepared(round) && PaidInTime(w, round)
            && w.melt(round).Paid? && w.melt(round).change == change && w.verified(round)
            && var choice := ChoiceOf(w, round, Total(inputs), w.inputFee(round).value, credited, live, maxFee);
               && choice.Chosen? && later == credited + choice.quoted.amount <= U64_MAX
               && w.minted(round) == Some(choice.quoted.amount)
               && later + Total(change) <= live <= later + Total(change) + maxFee
  {
  }

  /** An invoice is chosen and its payment is reported paid. */
  predicate PaidFor(w: World, round: nat, total: u64, credited: nat, live: u64, maxFee: u64) {
    && w.unspent(round) && w.inputFee(round).Some? && w.prepared(round) && w.melt(round).Paid?
    && ChoiceOf(w, round, total, w.inputFee(round).value, credited, live, maxFee).Chosen?
  }

  /** Why a round stops the run, for the reasons that concern its money. */
  lemma HaltsExactly(w: World, round: nat, inputs: seq<Proof>, credited: nat, live: u64, maxFee: u64)
    requires Total(inputs) <= U64_MAX
    ensures var step, total := RoundOf(w, round, inputs, credited, live, maxFee), Total(inputs);
            var fee := w.inputFee(round).GetOr(0);
            var choice := ChoiceOf(w, round, total, fee, credited, live, maxFee);
            var paid := PaidFor(w, round, total, credited, live, maxFee) && Total(w.melt(round).change) <= U64_MAX;
            && (step == Halt(InputSpent) <==> !w.unspent(round))
            && (step == Halt(MeltUnresolved) <==>
                  w.unspent(round) && w.inputFee(round).Some? && choice.Chosen? && w.prepared(round)
                  && w.melt(round).NotPaid?)
            && (step == Halt(QuoteUnpaid) <==> paid && !PaidInTime(w, round))
            && (step == Halt(IssueMismatch) <==>
                  paid && PaidInTime(w, round)
                  && (w.minted(round) != Some(choice.quoted.amount) || !w.verified(round)))
            && (step == Finished <==> w.unspent(round) && w.inputFee(round).Some? && choice.NoQuote?)
  {
    var fee := w.inputFee(round).GetOr(0);
    if PaymentTarget(Total(inputs), fee, 0).Some? {
      StopsBeforePaying(w, round, 0, PaymentTarget(Total(inputs), fee, 0).value, Total(inputs), fee, credited, live,
                        maxFee);
    }
  }

  lemma {:induction false} StopsBeforePaying(w: World, round: nat, attempt: nat, target: u64, total: u64, inputFee: u64,
                                             credited: nat, live: u64, maxFee: u64)
    ensures var choice := Sought(w, round, attempt, target, total, inputFee, credited, live, maxFee);
            choice.Stopped? ==> choice.reason in {RequestFailed, Overflow, BudgetBeforeMelt}
    decreases QUOTES_PER_ROUND - attempt
  {
    if attempt < QUOTES_PER_ROUND && ReserveOf(w, round, attempt).Some? {
      var next := PaymentTarget(total, inputFee, ReserveOf(w, round, attempt).value);
      if next.Some? && next.value < target {
        StopsBeforePaying(w, round, attempt + 1, next.value, total, inputFee, credited, live, maxFee);
      }
    }
  }

  /** The books close exactly when the clean-up and its transaction succeed and the wallet holds what is tracked. */
  lemma ClosesExactly(w: World, p: Position)
    ensures Closed(w, p).Ok? <==> w.cleaned && w.transacted && w.active.Some? && w.active.value == Total(p.inputs)
    ensures Closed(w, p).Ok? ==> Closed(w, p).value == (p.credited, Total(p.inputs))
    ensures Closed(w, p) == Err(FinalMismatch) <==>
              w.cleaned && w.transacted && (w.active.None? || w.active.value != Total(p.inputs))
  {
  }

  /** A run starts exactly with a budget of at most a twentieth, a plan that is still current before and after the
      backup, the planned inventory, and a new directory that holds the backup. */
  lemma StartsExactly(live: u64, maxFee: u64, w: World)
    ensures Obstacle(live, maxFee, w).None?
       <==> && 0 < maxFee && 20 * maxFee <= live && w.planCurrent && w.planStillCurrent
            && w.inventory.Some? && Total(w.inventory.value) == live && w.directoryCreated && w.backedUp
  {
  }

  /** Everything goes as it should, at a steady reserve and without change. */
  ghost predicate Smooth(w: World, live: u64, inputFee: u64, reserve: u64) {
    && w.inventory.Some? && Total(w.inventory.value) == live && w.unspent(0) && w.inputFee(0) == Some(inputFee)
    && Steady(w, 0, reserve) && inputFee + reserve < live
    && w.prepared(0) && w.melt(0).Paid? && w.melt(0).change == [] && PaidInTime(w, 0)
    && w.minted(0) == Some(live - inputFee - reserve) && w.verified(0)
    && w.cleaned && w.transacted && w.active == Some(0)
  }

  lemma SmoothRound(w: World, live: u64, maxFee: u64, inputFee: u64, reserve: u64)
    requires Smooth(w, live, inputFee, reserve)
    ensures var step := RoundOf(w, 0, w.inventory.value, 0, live, maxFee);
            if inputFee + reserve <= maxFee then step == Advanced(live - inputFee - reserve, [])
            else step == Halt(BudgetBeforeMelt)
  {
    SteadyChoice(w, 0, reserve, live, inputFee, 0, live, maxFee);
    AdvancesExactly(w, 0, w.inventory.value, 0, live, maxFee, live - inputFee - reserve, []);
  }

  lemma EndsWithoutInputs(w: World, ps: seq<Position>, first: seq<Proof>, i: nat, live: u64, maxFee: u64)
    requires Played(w, ps, first, live, maxFee) && i < |ps|
    ensures ps[i].inputs == [] ==> i == |ps| - 1
  {
    if i < |ps| - 1 { assert Moves(w, ps, i, live, maxFee); }
  }

  /** Such a run credits exactly what input fee and reserve leave, and keeps nothing back, if together they are within
      the budget; otherwise it stops before paying anything. */
  lemma SmoothRunSucceeds(w: World, r: Result<Summary, Stop>, ps: seq<Position>, stop: Option<Stop>, live: u64,
                          maxFee: u64, inputFee: u64, reserve: u64)
    requires Smooth(w, live, inputFee, reserve)
    requires Accounted(w, r, w.inventory.value, ps, stop, live, maxFee)
    ensures if inputFee + reserve <= maxFee
            then r.Ok? && r.value.credited == live - inputFee - reserve && r.value.remaining == 0
            else r == Err(BudgetBeforeMelt)
  {
    var first := w.inventory.value;
    assert first != [];
    SmoothRound(w, live, maxFee, inputFee, reserve);
    if |ps| > 1 {
      assert Moves(w, ps, 0, live, maxFee);
      EndsWithoutInputs(w, ps, first, 1, live, maxFee);
    }
  }
}

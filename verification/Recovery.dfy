/** The bounded recovery run of bin/m5_recover.rs: payments within a loss budget, a write-ahead journal, and a lock that
    outlives a failed run. */
module Recovery {
  import opened Prelude
  import opened ForeignWallet

  const ROUNDS: nat := 8
  const QUOTES_PER_ROUND: nat := 16
  const STATUS_POLLS: nat := 30

  function PaymentTarget(total: u64, inputFee: u64, reserve: u64): Option<u64> {
    var afterFee := CheckedSub(total, inputFee);
    if afterFee.None? then None else
      var left := CheckedSub(afterFee.value, reserve);
      if left.Some? && left.value > 0 then left else None
  }

  /** A payment takes all that fee and reserve leave, and there is one exactly when they leave something. */
  lemma PaymentTargetExactly(total: u64, inputFee: u64, reserve: u64, target: u64)
    ensures PaymentTarget(total, inputFee, reserve) == Some(target)
       <==> target > 0 && target + inputFee + reserve == total
  {
  }

  predicate WithinBudget(initial: nat, credited: nat, remaining: nat, maxFee: nat) {
    credited + remaining <= U64_MAX && credited + remaining <= initial && initial - (credited + remaining) <= maxFee
  }

  datatype Event =
    | BackedUp(initial: u64, maxFee: u64)
    | CanonicalQuote(round: nat, canonical: string, amount: u64)
    | ForeignQuote(round: nat, canonical: string, melt: string, amount: u64, reserve: u64, inputFee: u64)
    | BeforeMelt(round: nat, canonical: string, melt: string, inputs: u64, target: u64, ys: seq<string>)
    | MeltPaid(round: nat, melt: string, fee: u64)
    | BeforeCanonicalMint(round: nat, canonical: string)
    | RoundComplete(round: nat, credited: u64, remaining: u64)
    | BeforeCleanup
    | OperationsArchived
    | Complete(credited: u64, remaining: u64, loss: u64)

  /** Everything the run does to the outside, in order: synced journal entries, payments, and issued proofs. A crash
      leaves a prefix of this sequence. */
  datatype Effect =
    | Journal(event: Event)
    | ConfirmMelt(paidQuote: string, paidMelt: string, spent: seq<string>)
    | MintCanonical(minted: string)

  // An auditor that reads the effects from the start.

  datatype Quoted = Quoted(canonical: string, melt: string, amount: u64, reserve: u64, inputFee: u64)

  /** How far the payment of a round has got. Every step to the outside follows a journal entry that names it. */
  datatype Stage = Announced | Confirmed | Reported | Issuing | Minted

  datatype Payment = Payment(canonical: string, melt: string, target: u64, ys: seq<string>, stage: Stage)

  datatype Ledger = Ledger(quote: Option<Quoted>, open: Option<Payment>, credited: nat, pairs: nat, befores: nat,
                           completes: nat)

  /** A payment announced in the journal is backed by the last foreign quote, covered by its inputs and, if nothing at
      all came back, still within the budget. */
  predicate Announceable(l: Ledger, e: Event, live: u64, maxFee: u64)
    requires e.BeforeMelt?
  {
    && l.open.None? && l.quote.Some?
    && l.quote.value.canonical == e.canonical && l.quote.value.melt == e.melt && l.quote.value.amount == e.target
    && e.target + l.quote.value.inputFee + l.quote.value.reserve <= e.inputs
    && l.credited + e.target <= live && live - (l.credited + e.target) <= maxFee
  }

  predicate InStage(l: Ledger, stage: Stage) { l.open.Some? && l.open.value.stage == stage }

  function Moved(l: Ledger, stage: Stage): Ledger
    requires l.open.Some?
  {
    l.(open := Some(l.open.value.(stage := stage)))
  }

  function Audit1(l: Ledger, e: Effect, live: u64, maxFee: u64): Option<Ledger> {
    match e
    case ConfirmMelt(canonical, melt, ys) =>
      if InStage(l, Announced)
         && l.open.value.canonical == canonical && l.open.value.melt == melt && l.open.value.ys == ys
      then Some(Moved(l, Confirmed)) else None
    case MintCanonical(canonical) =>
      if InStage(l, Issuing) && l.open.value.canonical == canonical then Some(Moved(l, Minted)) else None
    case Journal(event) =>
      match event
      case CanonicalQuote(_, _, _) => if l.open.None? then Some(l.(pairs := l.pairs + 1)) else None
      case ForeignQuote(_, canonical, melt, amount, reserve, inputFee) =>
        if l.open.None? then Some(l.(quote := Some(Quoted(canonical, melt, amount, reserve, inputFee)))) else None
      case BeforeMelt(_, canonical, melt, _, target, ys) =>
        if Announceable(l, event, live, maxFee)
        then Some(l.(open := Some(Payment(canonical, melt, target, ys, Announced)), befores := l.befores + 1)) else None
      case MeltPaid(_, melt, _) =>
        if InStage(l, Confirmed) && l.open.value.melt == melt then Some(Moved(l, Reported)) else None
      case BeforeCanonicalMint(_, canonical) =>
        if InStage(l, Reported) && l.open.value.canonical == canonical then Some(Moved(l, Issuing)) else None
      case RoundComplete(_, credited, remaining) =>
        if InStage(l, Minted) && credited == l.credited + l.open.value.target
           && WithinBudget(live, credited, remaining, maxFee)
        then Some(l.(open := None, credited := credited, completes := l.completes + 1)) else None
      case Complete(credited, remaining, loss) =>
        if l.open.None? && credited == l.credited && credited + remaining + loss == live && loss <= maxFee
        then Some(l) else None
      case _ => if l.open.None? then Some(l) else None
  }

  function Audit(t: seq<Effect>, live: u64, maxFee: u64): Option<Ledger> {
    if t == [] then Some(Ledger(None, None, 0, 0, 0, 0)) else
      var l := Audit(t[..|t| - 1], live, maxFee);
      if l.None? then None else Audit1(l.value, t[|t| - 1], live, maxFee)
  }

  // Counting the effects.

  function PaidOne(e: Effect): nat { if e.ConfirmMelt? then 1 else 0 }

  function IssuedOne(e: Effect): nat { if e.MintCanonical? then 1 else 0 }

  function QuotedOne(e: Effect): nat { if e.Journal? && e.event.CanonicalQuote? then 1 else 0 }

  function Payments(t: seq<Effect>): nat { Sum(PaidOne, t) }

  function Issues(t: seq<Effect>): nat { Sum(IssuedOne, t) }

  function QuotePairs(t: seq<Effect>): nat { Sum(QuotedOne, t) }

  /** One payment and one issue for each announcement, except that the last may not have got so far yet. */
  lemma {:induction false} EffectsCounted(t: seq<Effect>, live: u64, maxFee: u64)
    requires Audit(t, live, maxFee).Some?
    ensures var l := Audit(t, live, maxFee).value;
            && QuotePairs(t) == l.pairs
            && Payments(t) + (if InStage(l, Announced) then 1 else 0) == l.befores
            && Issues(t) + (if l.open.Some? && l.open.value.stage != Minted then 1 else 0) == l.befores
  {
    if t != [] { EffectsCounted(t[..|t| - 1], live, maxFee); }
  }

  // The run.

  datatype ForeignReply = ForeignReply(melt: string, reserve: u64)
  datatype QuoteReply = QuoteReply(canonical: Option<string>, foreign: Option<ForeignReply>)
  datatype MeltReply = NotPaid | Paid(fee: u64, change: seq<Proof>)
  datatype QuoteState = Unpaid | QuotePaid | Issued

  /** The environment: the two mints, the clock and the wallet store. Nothing is assumed about it. */
  datatype World = World(
    planCurrent: bool, planStillCurrent: bool, directoryCreated: bool, backedUp: bool, walletsOpen: bool,
    inventory: Option<seq<Proof>>,
    unspent: nat -> bool,
    inputFee: nat -> Option<u64>,
    quotes: (nat, nat) -> QuoteReply,
    prepared: nat -> bool,
    melt: nat -> MeltReply,
    status: (nat, nat) -> Option<QuoteState>,
    minted: nat -> Option<u64>,
    verified: nat -> bool,
    cleaned: bool,
    transacted: bool,
    active: Option<u64>)

  datatype Stop =
    | FeeCeiling | StalePlan | InventoryChanged | DirectoryExists | BackupFailed | OpenFailed
    | InputSpent | RequestFailed
    | Overflow | BudgetBeforeMelt | MeltUnresolved | QuoteUnpaid | IssueMismatch | BudgetAfterRound
    | CleanupFailed | FinalMismatch | BudgetAtEnd

  datatype Choice = NoQuote | Chosen(quoted: Quoted) | Stopped(reason: Stop)

  datatype Summary = Summary(credited: u64, remaining: u64, loss: u64)

  /** Appends one synced entry, or performs one payment step. */
  method Perform(t: seq<Effect>, e: Effect, ghost live: u64, ghost maxFee: u64) returns (after: seq<Effect>)
    ensures after == t + [e]
    ensures Audit(t, live, maxFee).Some? ==>
              Audit(after, live, maxFee) == Audit1(Audit(t, live, maxFee).value, e, live, maxFee)
  {
    after := t + [e];
    assert after[..|after| - 1] == t;
  }

  /** The same, for an auditor whose ledger is known before and after. */
  method Act(t: seq<Effect>, e: Effect, ghost l: Ledger, ghost m: Ledger, ghost live: u64, ghost maxFee: u64)
    returns (after: seq<Effect>)
    requires Audit(t, live, maxFee) == Some(l) && Audit1(l, e, live, maxFee) == Some(m)
    ensures after == t + [e] && Audit(after, live, maxFee) == Some(m)
  {
    after := Perform(t, e, live, maxFee);
  }

  /** The search for an invoice that fits, from the given attempt on. */
  function Sought(w: World, round: nat, attempt: nat, target: u64, total: u64, inputFee: u64, credited: nat, live: u64,
                  maxFee: u64): Choice
    decreases QUOTES_PER_ROUND - attempt
  {
    if attempt >= QUOTES_PER_ROUND then NoQuote else
      var reply := w.quotes(round, attempt);
      if reply.canonical.None? || reply.foreign.None? then Stopped(RequestFailed) else
        var next := PaymentTarget(total, inputFee, reply.foreign.value.reserve);
        if next.None? then NoQuote
        else if next.value < target
        then Sought(w, round, attempt + 1, next.value, total, inputFee, credited, live, maxFee)
        else if credited + target > U64_MAX then Stopped(Overflow)
        else if !WithinBudget(live, credited + target, 0, maxFee) then Stopped(BudgetBeforeMelt)
        else
          Chosen(Quoted(reply.canonical.value, reply.foreign.value.melt, target, reply.foreign.value.reserve, inputFee))
  }

  /** What a round will do about a payment. */
  function ChoiceOf(w: World, round: nat, total: u64, inputFee: u64, credited: nat, live: u64, maxFee: u64): Choice {
    var first := PaymentTarget(total, inputFee, 0);
    if first.None? then NoQuote else Sought(w, round, 0, first.value, total, inputFee, credited, live, maxFee)
  }

  /** One quote at the destination and one at the source, each journaled. */
  method RequestPair(t: seq<Effect>, round: nat, attempt: nat, target: u64, inputFee: u64, live: u64, maxFee: u64,
                     w: World)
    returns (pair: Option<Quoted>, after: seq<Effect>)
    requires Audit(t, live, maxFee).Some? && Audit(t, live, maxFee).value.open.None?
    ensures t <= after && Audit(after, live, maxFee).Some?
    ensures var l, m := Audit(t, live, maxFee).value, Audit(after, live, maxFee).value;
            && m == l.(quote := m.quote, pairs := m.pairs) && m.pairs <= l.pairs + 1
            && (pair.Some? ==> m.quote == pair && m.pairs == l.pairs + 1)
    ensures var reply := w.quotes(round, attempt);
            if reply.canonical.None? || reply.foreign.None? then pair == None
            else
              var ForeignReply(melt, reserve) := reply.foreign.value;
              pair == Some(Quoted(reply.canonical.value, melt, target, reserve, inputFee))
  {
    after := t;
    var reply := w.quotes(round, attempt);
    if reply.canonical.None? { return None, after; }
    after := Perform(after, Journal(CanonicalQuote(round, reply.canonical.value, target)), live, maxFee);
    if reply.foreign.None? { return None, after; }
    var ForeignReply(melt, reserve) := reply.foreign.value;
    var quoted := ForeignQuote(round, reply.canonical.value, melt, target, reserve, inputFee);
    after := Perform(after, Journal(quoted), live, maxFee);
    pair := Some(Quoted(reply.canonical.value, melt, target, reserve, inputFee));
  }

  /** What a choice promises. */
  ghost predicate SoundChoice(choice: Choice, l: Ledger, total: u64, inputFee: u64, credited: nat, live: u64,
                              maxFee: u64)
  {
    match choice
    case NoQuote => true
    case Chosen(quoted) =>
      && l.quote == Some(quoted) && quoted.inputFee == inputFee && quoted.amount > 0
      && quoted.amount + inputFee + quoted.reserve <= total
      && WithinBudget(live, credited + quoted.amount, 0, maxFee)
    case Stopped(reason) =>
      && (reason == RequestFailed || reason == Overflow || reason == BudgetBeforeMelt)
      && (reason == BudgetBeforeMelt ==> credited + total > live || live > credited + maxFee)
  }

  datatype Search = More(target: u64) | Over(choice: Choice)

  /** One attempt at an invoice. */
  method TryInvoice(t: seq<Effect>, round: nat, attempt: nat, target: u64, total: u64, inputFee: u64, credited: u64,
                    live: u64, maxFee: u64, w: World)
    returns (step: Search, after: seq<Effect>)
    requires Audit(t, live, maxFee).Some? && Audit(t, live, maxFee).value.open.None?
    requires attempt < QUOTES_PER_ROUND && 0 < target <= total
    ensures t <= after && Audit(after, live, maxFee).Some?
    ensures var l, m := Audit(t, live, maxFee).value, Audit(after, live, maxFee).value;
            m == l.(quote := m.quote, pairs := m.pairs) && m.pairs <= l.pairs + 1
    ensures Sought(w, round, attempt, target, total, inputFee, credited, live, maxFee)
         == match step
            case More(less) => Sought(w, round, attempt + 1, less, total, inputFee, credited, live, maxFee)
            case Over(choice) => choice
    ensures step.More? ==> 0 < step.target <= total
    ensures step.Over? ==>
              SoundChoice(step.choice, Audit(after, live, maxFee).value, total, inputFee, credited, live, maxFee)
  {
    var pair;
    pair, after := RequestPair(t, round, attempt, target, inputFee, live, maxFee, w);
    if pair.None? { return Over(Stopped(RequestFailed)), after; }
    var next := PaymentTarget(total, inputFee, pair.value.reserve);
    if next.None? { return Over(NoQuote), after; }
    if next.value < target { return More(next.value), after; }
    var sum := CheckedAdd(credited, target);
    if sum.None? { return Over(Stopped(Overflow)), after; }
    if !WithinBudget(live, sum.value, 0, maxFee) { return Over(Stopped(BudgetBeforeMelt)), after; }
    return Over(Chosen(pair.value)), after;
  }

  /** Quotes at the destination and the source until an invoice fits the inputs. */
  method ChooseQuote(t: seq<Effect>, round: nat, total: u64, inputFee: u64, credited: u64, live: u64, maxFee: u64,
                     w: World)
    returns (choice: Choice, after: seq<Effect>)
    requires Audit(t, live, maxFee).Some? && Audit(t, live, maxFee).value.open.None?
    ensures choice == ChoiceOf(w, round, total, inputFee, credited, live, maxFee)
    ensures t <= after && Audit(after, live, maxFee).Some?
    ensures var l, m := Audit(t, live, maxFee).value, Audit(after, live, maxFee).value;
            m == l.(quote := m.quote, pairs := m.pairs) && m.pairs <= l.pairs + QUOTES_PER_ROUND
    ensures SoundChoice(choice, Audit(after, live, maxFee).value, total, inputFee, credited, live, maxFee)
  {
    after := t;
    var first := PaymentTarget(total, inputFee, 0);
    if first.None? { return NoQuote, after; }
    var target := first.value;
    ghost var sought := Sought(w, round, 0, target, total, inputFee, credited, live, maxFee);
    for attempt := 0 to QUOTES_PER_ROUND
      invariant t <= after && 0 < target <= total
      invariant sought == Sought(w, round, attempt, target, total, inputFee, credited, live, maxFee)
      invariant Audit(after, live, maxFee).Some?
      invariant var l, m := Audit(t, live, maxFee).value, Audit(after, live, maxFee).value;
                m == l.(quote := m.quote, pairs := m.pairs) && m.pairs <= l.pairs + attempt
    {
      var step;
      step, after := TryInvoice(after, round, attempt, target, total, inputFee, credited, live, maxFee, w);
      if step.Over? { return step.choice, after; }
      target := step.target;
    }
    choice := NoQuote;
  }

  /** The canonical quote is reported paid within the polls, and only unpaid before that. */
  predicate PaidInTime(w: World, round: nat) {
    exists k :: 0 <= k < STATUS_POLLS && w.status(round, k) == Some(QuotePaid)
                && forall j :: 0 <= j < k ==> w.status(round, j) == Some(Unpaid)
  }

  method AwaitPaid(round: nat, w: World) returns (paid: bool)
    ensures paid <==> PaidInTime(w, round)
  {
    for k := 0 to STATUS_POLLS
      invariant forall j :: 0 <= j < k ==> w.status(round, j) == Some(Unpaid)
    {
      match w.status(round, k) {
        case Some(QuotePaid) => return true;
        case Some(Unpaid) =>
        case _ => return false;
      }
    }
    return false;
  }

  function Total(proofs: seq<Proof>): nat { Sum(AmountOf, proofs) }

  // What a run comes to, told without its journal.

  datatype Progress = Halt(reason: Stop) | Finished | Advanced(credited: nat, change: seq<Proof>)

  function Melted(w: World, round: nat): Option<Stop> {
    if !w.prepared(round) then Some(RequestFailed)
    else if w.melt(round).NotPaid? then Some(MeltUnresolved) else None
  }

  function Credited(w: World, round: nat, target: u64, change: seq<Proof>, credited: nat, live: u64,
                    maxFee: u64): Option<Stop>
  {
    if Total(change) > U64_MAX then Some(Overflow)
    else if !PaidInTime(w, round) then Some(QuoteUnpaid)
    else if w.minted(round) != Some(target) || !w.verified(round) then Some(IssueMismatch)
    else if credited + target > U64_MAX then Some(Overflow)
    else if !WithinBudget(live, credited + target, Total(change), maxFee) then Some(BudgetAfterRound) else None
  }

  function RoundOf(w: World, round: nat, inputs: seq<Proof>, credited: nat, live: u64, maxFee: u64): Progress
    requires Total(inputs) <= U64_MAX
  {
    if !w.unspent(round) then Halt(InputSpent)
    else if w.inputFee(round).None? then Halt(RequestFailed)
    else match ChoiceOf(w, round, Total(inputs), w.inputFee(round).value, credited, live, maxFee)
      case NoQuote => Finished
      case Stopped(reason) => Halt(reason)
      case Chosen(quoted) =>
        if Melted(w, round).Some? then Halt(Melted(w, round).value) else
          var stop := Credited(w, round, quoted.amount, w.melt(round).change, credited, live, maxFee);
          if stop.Some? then Halt(stop.value) else Advanced(credited + quoted.amount, w.melt(round).change)
  }

  /** What a round starts with. */
  datatype Position = Position(inputs: seq<Proof>, credited: nat)

  /** The round that starts at the i-th position leads to the next one. */
  predicate Moves(w: World, ps: seq<Position>, i: nat, live: u64, maxFee: u64)
    requires i < |ps| - 1
  {
    var p, q := ps[i], ps[i + 1];
    && p.inputs != [] && Total(p.inputs) <= U64_MAX
    && RoundOf(w, i, p.inputs, p.credited, live, maxFee) == Advanced(q.credited, q.inputs)
  }

  /** The positions of consecutive rounds, from the first. */
  predicate Played(w: World, ps: seq<Position>, first: seq<Proof>, live: u64, maxFee: u64) {
    && 0 < |ps| <= ROUNDS + 1 && ps[0] == Position(first, 0) && Total(ps[|ps| - 1].inputs) <= U64_MAX
    && forall i | 0 <= i < |ps| - 1 :: Moves(w, ps, i, live, maxFee)
  }

  /** The rounds end here, for the given reason if any. */
  predicate Ends(w: World, round: nat, p: Position, stop: Option<Stop>, live: u64, maxFee: u64)
    requires Total(p.inputs) <= U64_MAX
  {
    if p.inputs == [] || round == ROUNDS then stop == None
    else match RoundOf(w, round, p.inputs, p.credited, live, maxFee)
      case Halt(reason) => stop == Some(reason)
      case Finished => stop == None
      case Advanced(_, _) => false
  }

  /** The first obstacle before anything is journaled. */
  function Obstacle(live: u64, maxFee: u64, w: World): Option<Stop> {
    if !(maxFee > 0 && maxFee <= live / 20) then Some(FeeCeiling)
    else if !w.planCurrent then Some(StalePlan)
    else if w.inventory.None? || Total(w.inventory.value) != live then Some(InventoryChanged)
    else if !w.directoryCreated then Some(DirectoryExists)
    else if !w.backedUp then Some(BackupFailed)
    else if !w.planStillCurrent then Some(StalePlan) else None
  }

  /** How a run ends whose rounds ended at `p`. */
  function Closed(w: World, p: Position): Result<(nat, nat), Stop> {
    if !w.cleaned || !w.transacted then Err(CleanupFailed)
    else if w.active.None? || w.active.value != Total(p.inputs) then Err(FinalMismatch)
    else Ok((p.credited, Total(p.inputs)))
  }

  /** A run past its preparations reports why its rounds stopped, or the result of closing the books. */
  predicate Accounted(w: World, r: Result<Summary, Stop>, first: seq<Proof>, ps: seq<Position>, stop: Option<Stop>,
                      live: u64, maxFee: u64)
  {
    && Played(w, ps, first, live, maxFee)
    && Ends(w, |ps| - 1, ps[|ps| - 1], stop, live, maxFee)
    && Reports(r, if stop.Some? then Err(stop.value) else Closed(w, ps[|ps| - 1]))
  }

  predicate Reports(r: Result<Summary, Stop>, end: Result<(nat, nat), Stop>) {
    match end
    case Ok((credited, remaining)) => r.Ok? && r.value.credited == credited && r.value.remaining == remaining
    case Err(e) => r == Err(e)
  }

  predicate SameStart(t: seq<Effect>, after: seq<Effect>) { t != [] ==> after != [] && after[0] == t[0] }

  /** What every round starts from. */
  ghost predicate RoundReady(t: seq<Effect>, round: nat, credited: nat, inputs: seq<Proof>, live: u64, maxFee: u64) {
    && Audit(t, live, maxFee).Some?
    && var l := Audit(t, live, maxFee).value;
       && l.open.None? && l.credited == credited
       && l.befores == l.completes <= round && l.pairs <= QUOTES_PER_ROUND * round
       && WithinBudget(live, credited, Total(inputs), maxFee)
       && (l.completes > 0 ==> live - credited <= maxFee)
       && (l.completes == 0 ==> credited == 0)
  }

  /** The announcement in the journal and the payment. */
  method MeltRound(t: seq<Effect>, round: nat, quoted: Quoted, inputs: seq<Proof>, live: u64, maxFee: u64, w: World)
    returns (stop: Option<Stop>, after: seq<Effect>, change: seq<Proof>)
    requires Audit(t, live, maxFee).Some? && Total(inputs) <= U64_MAX
    requires var l := Audit(t, live, maxFee).value;
             && l.open.None? && l.quote == Some(quoted)
             && l.credited + quoted.amount <= live && live - (l.credited + quoted.amount) <= maxFee
    requires quoted.amount + quoted.inputFee + quoted.reserve <= Total(inputs)
    ensures var l := Audit(t, live, maxFee).value;
            && Audit(after, live, maxFee).Some?
            && var m := Audit(after, live, maxFee).value;
               && m.pairs == l.pairs && m.befores == l.befores + 1 && m.completes == l.completes
               && (stop.None? ==>
                     var p := Payment(quoted.canonical, quoted.melt, quoted.amount, KeysOf(inputs), Reported);
                     m == l.(open := Some(p), befores := l.befores + 1))
    ensures var e := BeforeMelt(round, quoted.canonical, quoted.melt, Total(inputs), quoted.amount, KeysOf(inputs));
            t + [Journal(e)] <= after
    ensures stop == Melted(w, round)
    ensures stop.None? ==> change == w.melt(round).change
  {
    var ys := KeysOf(inputs);
    change := [];
    ghost var l := Audit(t, live, maxFee).value;
    ghost var open := Payment(quoted.canonical, quoted.melt, quoted.amount, ys, Announced);
    ghost var announced := l.(open := Some(open), befores := l.befores + 1);
    var e := BeforeMelt(round, quoted.canonical, quoted.melt, Total(inputs), quoted.amount, ys);
    after := Act(t, Journal(e), l, announced, live, maxFee);
    if !w.prepared(round) { return Some(RequestFailed), after, change; }
    after := Act(after, ConfirmMelt(quoted.canonical, quoted.melt, ys), announced, Moved(announced, Confirmed),
                 live, maxFee);
    match w.melt(round) {
      case NotPaid => return Some(MeltUnresolved), after, change;
      case Paid(fee, returned) =>
        after := Act(after, Journal(MeltPaid(round, quoted.melt, fee)), Moved(announced, Confirmed),
                     Moved(announced, Reported), live, maxFee);
        return None, after, returned;
    }
  }

  /** From the payment to the end of the round: the paid quote is issued and checked, and the budget holds again. */
  method IssueRound(t: seq<Effect>, round: nat, canonical: string, target: u64, change: seq<Proof>, credited: u64,
                    live: u64, maxFee: u64, w: World)
    returns (stop: Option<Stop>, after: seq<Effect>)
    requires Audit(t, live, maxFee).Some?
    requires var l := Audit(t, live, maxFee).value;
             && InStage(l, Reported) && l.open.value.canonical == canonical && l.open.value.target == target
             && l.credited == credited
    ensures t <= after
    ensures var l := Audit(t, live, maxFee).value;
            && Audit(after, live, maxFee).Some?
            && var m := Audit(after, live, maxFee).value;
               && m.pairs == l.pairs && m.befores == l.befores
               && (stop.None? ==> m == l.(open := None, credited := credited + target, completes := l.completes + 1))
    ensures stop == Credited(w, round, target, change, credited, live, maxFee)
  {
    after := t;
    if Total(change) > U64_MAX { return Some(Overflow), after; }
    var paid := AwaitPaid(round, w);
    if !paid { return Some(QuoteUnpaid), after; }
    ghost var l := Audit(t, live, maxFee).value;
    after := Act(after, Journal(BeforeCanonicalMint(round, canonical)), l, Moved(l, Issuing), live, maxFee);
    after := Act(after, MintCanonical(canonical), Moved(l, Issuing), Moved(l, Minted), live, maxFee);
    if w.minted(round) != Some(target) { return Some(IssueMismatch), after; }
    if !w.verified(round) { return Some(IssueMismatch), after; }
    var sum := CheckedAdd(credited, target);
    if sum.None? { return Some(Overflow), after; }
    if !WithinBudget(live, sum.value, Total(change), maxFee) { return Some(BudgetAfterRound), after; }
    after := Act(after, Journal(RoundComplete(round, sum.value, Total(change))), Moved(l, Minted),
                 l.(open := None, credited := sum.value, completes := l.completes + 1), live, maxFee);
    stop := None;
  }

  method Round(t: seq<Effect>, round: nat, inputs: seq<Proof>, credited: u64, live: u64, maxFee: u64, w: World)
    returns (step: Progress, after: seq<Effect>)
    requires RoundReady(t, round, credited, inputs, live, maxFee)
    ensures SameStart(t, after) && Audit(after, live, maxFee).Some?
    ensures var l, m := Audit(t, live, maxFee).value, Audit(after, live, maxFee).value;
            && m.pairs <= l.pairs + QUOTES_PER_ROUND && m.befores <= l.befores + 1
    ensures step.Advanced? ==> RoundReady(after, round + 1, step.credited, step.change, live, maxFee)
    ensures step.Finished? ==> RoundReady(after, round + 1, credited, inputs, live, maxFee)
    ensures step == RoundOf(w, round, inputs, credited, live, maxFee)
    ensures step == Halt(BudgetBeforeMelt) ==>
              Audit(after, live, maxFee).value.befores == 0 && Audit(after, live, maxFee).value.completes == 0
    ensures step != Halt(BudgetAtEnd)
  {
    after := t;
    var total: u64 := Total(inputs);
    if !w.unspent(round) { return Halt(InputSpent), after; }
    var fee := w.inputFee(round);
    if fee.None? { return Halt(RequestFailed), after; }
    var choice;
    choice, after := ChooseQuote(after, round, total, fee.value, credited, live, maxFee, w);
    if choice.NoQuote? { return Finished, after; }
    if choice.Stopped? { return Halt(choice.reason), after; }
    var target := choice.quoted.amount;
    var unpaid, change;
    unpaid, after, change := MeltRound(after, round, choice.quoted, inputs, live, maxFee, w);
    if unpaid.Some? { return Halt(unpaid.value), after; }
    var unissued;
    unissued, after := IssueRound(after, round, choice.quoted.canonical, target, change, credited, live, maxFee, w);
    if unissued.Some? { return Halt(unissued.value), after; }
    return Advanced(credited + target, change), after;
  }

  lemma PlayedOn(w: World, ps: seq<Position>, q: Position, first: seq<Proof>, live: u64, maxFee: u64)
    requires Played(w, ps, first, live, maxFee) && |ps| <= ROUNDS && Total(q.inputs) <= U64_MAX
    requires Moves(w, ps + [q], |ps| - 1, live, maxFee)
    ensures Played(w, ps + [q], first, live, maxFee)
  {
    forall i | 0 <= i < |ps| ensures Moves(w, ps + [q], i, live, maxFee) {
      if i < |ps| - 1 { assert Moves(w, ps, i, live, maxFee); }
    }
  }

  /** Ready for the given round, with the positions of the rounds so far. */
  ghost predicate Underway(t: seq<Effect>, round: nat, credited: nat, inputs: seq<Proof>, ps: seq<Position>,
                           first: seq<Proof>, live: u64, maxFee: u64, w: World)
  {
    && RoundReady(t, round, credited, inputs, live, maxFee)
    && Played(w, ps, first, live, maxFee) && |ps| == round + 1 && ps[round] == Position(inputs, credited)
  }

  /** What every number of rounds keeps within. */
  ghost predicate Bounded(t: seq<Effect>, rounds: nat, live: u64, maxFee: u64) {
    && Audit(t, live, maxFee).Some?
    && Audit(t, live, maxFee).value.befores <= rounds
    && Audit(t, live, maxFee).value.pairs <= rounds * QUOTES_PER_ROUND
  }

  function StopOf(step: Progress): Option<Stop> { if step.Halt? then Some(step.reason) else None }

  /** The rounds are over. */
  ghost predicate PlayedOut(stop: Option<Stop>, t: seq<Effect>, credited: nat, inputs: seq<Proof>, ps: seq<Position>,
                            first: seq<Proof>, live: u64, maxFee: u64, w: World)
  {
    && Bounded(t, ROUNDS, live, maxFee)
    && (stop.None? ==> RoundReady(t, ROUNDS, credited, inputs, live, maxFee))
    && Played(w, ps, first, live, maxFee) && ps[|ps| - 1] == Position(inputs, credited)
    && Ends(w, |ps| - 1, ps[|ps| - 1], stop, live, maxFee)
    && (stop == Some(BudgetBeforeMelt) ==>
          Audit(t, live, maxFee).value.befores == 0 && Audit(t, live, maxFee).value.completes == 0)
    && stop != Some(BudgetAtEnd)
  }

  lemma NoRoundLeft(t: seq<Effect>, round: nat, credited: nat, inputs: seq<Proof>, ps: seq<Position>,
                    first: seq<Proof>, live: u64, maxFee: u64, w: World)
    requires Underway(t, round, credited, inputs, ps, first, live, maxFee, w)
    requires round <= ROUNDS && (inputs == [] || round == ROUNDS)
    ensures PlayedOut(None, t, credited, inputs, ps, first, live, maxFee, w)
  {
  }

  /** One more round. */
  method PlayRound(t: seq<Effect>, round: nat, credited: u64, inputs: seq<Proof>, ghost ps: seq<Position>,
                   ghost first: seq<Proof>, live: u64, maxFee: u64, w: World)
    returns (step: Progress, after: seq<Effect>, ghost qs: seq<Position>)
    requires round < ROUNDS && Underway(t, round, credited, inputs, ps, first, live, maxFee, w) && inputs != []
    ensures SameStart(t, after)
    ensures if step.Advanced? then Underway(after, round + 1, step.credited, step.change, qs, first, live, maxFee, w)
            else PlayedOut(StopOf(step), after, credited, inputs, qs, first, live, maxFee, w)
  {
    qs := ps;
    step, after := Round(t, round, inputs, credited, live, maxFee, w);
    if step.Advanced? {
      qs := ps + [Position(step.change, step.credited)];
      PlayedOn(w, ps, Position(step.change, step.credited), first, live, maxFee);
    }
  }

  /** At most eight rounds; a run that gets through them is ready for one more. */
  method PayRounds(start: seq<Effect>, first: seq<Proof>, live: u64, maxFee: u64, w: World)
    returns (stop: Option<Stop>, t: seq<Effect>, credited: u64, inputs: seq<Proof>, ghost ps: seq<Position>)
    requires RoundReady(start, 0, 0, first, live, maxFee)
    ensures SameStart(start, t) && PlayedOut(stop, t, credited, inputs, ps, first, live, maxFee, w)
  {
    t, credited, inputs := start, 0, first;
    ps := [Position(first, 0)];
    for round := 0 to ROUNDS
      invariant SameStart(start, t) && Underway(t, round, credited, inputs, ps, first, live, maxFee, w)
    {
      if inputs == [] {
        NoRoundLeft(t, round, credited, inputs, ps, first, live, maxFee, w);
        return None, t, credited, inputs, ps;
      }
      var step;
      step, t, ps := PlayRound(t, round, credited, inputs, ps, first, live, maxFee, w);
      if !step.Advanced? { return StopOf(step), t, credited, inputs, ps; }
      credited, inputs := step.credited, step.change;
    }
    NoRoundLeft(t, ROUNDS, credited, inputs, ps, first, live, maxFee, w);
    stop := None;
  }

  method Prepare(live: u64, maxFee: u64, w: World) returns (obstacle: Option<Stop>)
    ensures obstacle == Obstacle(live, maxFee, w)
  {
    if !(maxFee > 0 && maxFee <= live / 20) { return Some(FeeCeiling); }
    if !w.planCurrent { return Some(StalePlan); }
    if w.inventory.None? { return Some(InventoryChanged); }
    if Total(w.inventory.value) != live { return Some(InventoryChanged); }
    if !w.directoryCreated { return Some(DirectoryExists); }
    if !w.backedUp { return Some(BackupFailed); }
    if !w.planStillCurrent { return Some(StalePlan); }
    return None;
  }

  /** After the last round: the old operations are archived and the books are closed. */
  method CleanUp(start: seq<Effect>, credited: u64, inputs: seq<Proof>, live: u64, maxFee: u64, w: World,
                 ghost l: Ledger)
    returns (r: Result<Summary, Stop>, t: seq<Effect>)
    requires Audit(start, live, maxFee) == Some(l) && l.open.None? && l.credited == credited
    requires WithinBudget(live, credited, Total(inputs), maxFee)
    ensures start <= t && Audit(t, live, maxFee) == Some(l)
    ensures Reports(r, Closed(w, Position(inputs, credited)))
    ensures r.Ok? ==> r.value.credited == credited && r.value.loss <= maxFee
                      && live == r.value.credited + r.value.remaining + r.value.loss
    ensures r != Err(BudgetAtEnd) && r != Err(BudgetBeforeMelt)
    ensures r.Ok? ==> t != [] && t[|t| - 1] == Journal(Complete(r.value.credited, r.value.remaining, r.value.loss))
  {
    t := start;
    var remaining: u64 := Total(inputs);
    if !w.cleaned { return Err(CleanupFailed), t; }
    t := Act(t, Journal(BeforeCleanup), l, l, live, maxFee);
    if !w.transacted { return Err(CleanupFailed), t; }
    t := Act(t, Journal(OperationsArchived), l, l, live, maxFee);
    if w.active != Some(remaining) { return Err(FinalMismatch), t; }
    if !WithinBudget(live, credited, remaining, maxFee) { return Err(BudgetAtEnd), t; }
    var loss: u64 := live - credited - remaining;
    t := Act(t, Journal(Complete(credited, remaining, loss)), l, l, live, maxFee);
    r := Ok(Summary(credited, remaining, loss));
  }

  /** What holds of the effects of every run. */
  ghost predicate Sound(r: Result<Summary, Stop>, t: seq<Effect>, live: u64, maxFee: u64) {
    && Audit(t, live, maxFee).Some?
    && var l := Audit(t, live, maxFee).value;
       && l.befores <= ROUNDS && l.pairs <= ROUNDS * QUOTES_PER_ROUND
       && (r == Err(BudgetBeforeMelt) ==> l.completes == 0 && l.befores == 0)
       && r != Err(BudgetAtEnd)
       && (r.Ok? ==>
             && l.open.None? && r.value.credited == l.credited
             && live == r.value.credited + r.value.remaining + r.value.loss && r.value.loss <= maxFee
             && t != [] && t[|t| - 1] == Journal(Complete(r.value.credited, r.value.remaining, r.value.loss)))
  }

  /** The rounds and the closing of the books. */
  method PayAndClose(start: seq<Effect>, first: seq<Proof>, live: u64, maxFee: u64, w: World)
    returns (r: Result<Summary, Stop>, t: seq<Effect>, ghost ps: seq<Position>, ghost stop: Option<Stop>)
    requires RoundReady(start, 0, 0, first, live, maxFee)
    ensures SameStart(start, t) && Sound(r, t, live, maxFee)
    ensures Accounted(w, r, first, ps, stop, live, maxFee)
  {
    var halted, credited, inputs;
    halted, t, credited, inputs, ps := PayRounds(start, first, live, maxFee, w);
    stop := halted;
    if halted.Some? { return Err(halted.value), t, ps, stop; }
    r, t := CleanUp(t, credited, inputs, live, maxFee, w, Audit(t, live, maxFee).value);
  }

  /** The run. Whatever the world does, every effect passes the auditor; only the first payment can fail the budget
      check made before paying; and a completed run accounts for every satoshi. */
  method Execute(live: u64, maxFee: u64, w: World)
    returns (r: Result<Summary, Stop>, t: seq<Effect>, ghost ps: seq<Position>, ghost stop: Option<Stop>)
    ensures Sound(r, t, live, maxFee)
    ensures Payments(t) <= ROUNDS && Issues(t) <= ROUNDS && QuotePairs(t) <= ROUNDS * QUOTES_PER_ROUND
    ensures match Obstacle(live, maxFee, w)
            case Some(reason) => t == [] && r == Err(reason)
            case None =>
              && t != [] && t[0] == Journal(BackedUp(live, maxFee))
              && if w.walletsOpen then Accounted(w, r, w.inventory.value, ps, stop, live, maxFee)
                 else r == Err(OpenFailed)
  {
    t, ps, stop := [], [], None;
    var obstacle := Prepare(live, maxFee, w);
    EffectsCounted(t, live, maxFee);
    if obstacle.Some? { return Err(obstacle.value), t, ps, stop; }
    t := Perform(t, Journal(BackedUp(live, maxFee)), live, maxFee);
    EffectsCounted(t, live, maxFee);
    if !w.walletsOpen { return Err(OpenFailed), t, ps, stop; }
    r, t, ps, stop := PayAndClose(t, w.inventory.value, live, maxFee, w);
    EffectsCounted(t, live, maxFee);
  }

  // What the auditor's approval means, at every point where the run may crash.

  predicate Announces(e: Effect) { e.Journal? && e.event.BeforeMelt? }

  predicate Completes(e: Effect) { e.Journal? && e.event.RoundComplete? }

  function Announced1(e: Effect): nat { if Announces(e) then 1 else 0 }

  function Completed1(e: Effect): nat { if Completes(e) then 1 else 0 }

  function Announcements(t: seq<Effect>): nat { Sum(Announced1, t) }

  function Completions(t: seq<Effect>): nat { Sum(Completed1, t) }

  /** The last announced target. */
  function LastTarget(t: seq<Effect>): nat {
    if t == [] then 0
    else if Announces(t[|t| - 1]) then t[|t| - 1].event.target
    else LastTarget(t[..|t| - 1])
  }

  /** The targets of the completed rounds. */
  function CompletedTargets(t: seq<Effect>): nat {
    if t == [] then 0
    else CompletedTargets(t[..|t| - 1]) + if Completes(t[|t| - 1]) then LastTarget(t[..|t| - 1]) else 0
  }

  /** The credit reported by the last completed round. */
  function LastCredited(t: seq<Effect>): nat {
    if t == [] then 0
    else if Completes(t[|t| - 1]) then t[|t| - 1].event.credited
    else LastCredited(t[..|t| - 1])
  }

  /** A crash leaves a prefix; the auditor approves every prefix of what it approves. */
  lemma {:induction false} PrefixAudited(t: seq<Effect>, k: nat, live: u64, maxFee: u64)
    requires Audit(t, live, maxFee).Some? && k <= |t|
    ensures Audit(t[..k], live, maxFee).Some?
  {
    if k < |t| {
      assert t[..|t| - 1][..k] == t[..k];
      PrefixAudited(t[..|t| - 1], k, live, maxFee);
    } else {
      assert t[..k] == t;
    }
  }

  lemma {:induction false} LedgerCounts(t: seq<Effect>, live: u64, maxFee: u64)
    requires Audit(t, live, maxFee).Some?
    ensures var l := Audit(t, live, maxFee).value;
            && l.befores == Announcements(t) && l.completes == Completions(t)
            && l.befores == l.completes + (if l.open.Some? then 1 else 0)
            && l.credited == LastCredited(t) == CompletedTargets(t)
            && (l.open.Some? ==> l.open.value.target == LastTarget(t))
  {
    if t != [] { LedgerCounts(t[..|t| - 1], live, maxFee); }
  }

  /** Write-ahead: at every crash point the announcements exceed the completed rounds by at most one, and the last
      reported credit is the sum of the completed targets. */
  lemma JournalIsWriteAhead(t: seq<Effect>, k: nat, live: u64, maxFee: u64)
    requires Audit(t, live, maxFee).Some? && k <= |t|
    ensures Completions(t[..k]) <= Announcements(t[..k]) <= Completions(t[..k]) + 1
    ensures LastCredited(t[..k]) == CompletedTargets(t[..k])
  {
    PrefixAudited(t, k, live, maxFee);
    LedgerCounts(t[..k], live, maxFee);
  }

  lemma {:induction false} OpenIsAnnounced(t: seq<Effect>, live: u64, maxFee: u64) returns (j: nat)
    requires Audit(t, live, maxFee).Some? && Audit(t, live, maxFee).value.open.Some?
    ensures j < |t| && Announces(t[j])
    ensures var p := Audit(t, live, maxFee).value.open.value;
            && t[j].event.canonical == p.canonical && t[j].event.melt == p.melt
            && t[j].event.ys == p.ys && t[j].event.target == p.target
  {
    j := |t| - 1;
    if !Announces(t[j]) { j := OpenIsAnnounced(t[..|t| - 1], live, maxFee); }
  }

  /** Every payment was announced before, with both of its quotes and the proofs it spends. */
  lemma PaymentWasAnnounced(t: seq<Effect>, i: nat, live: u64, maxFee: u64) returns (j: nat)
    requires Audit(t, live, maxFee).Some? && i < |t| && t[i].ConfirmMelt?
    ensures j < i && Announces(t[j])
    ensures t[j].event.canonical == t[i].paidQuote && t[j].event.melt == t[i].paidMelt && t[j].event.ys == t[i].spent
  {
    PrefixAudited(t, i + 1, live, maxFee);
    assert t[..i + 1][..i] == t[..i];
    PrefixAudited(t, i, live, maxFee);
    j := OpenIsAnnounced(t[..i], live, maxFee);
  }

  lemma {:induction false} QuoteWasJournaled(t: seq<Effect>, live: u64, maxFee: u64) returns (j: nat)
    requires Audit(t, live, maxFee).Some? && Audit(t, live, maxFee).value.quote.Some?
    ensures j < |t| && t[j].Journal? && t[j].event.ForeignQuote?
    ensures var q, e := Audit(t, live, maxFee).value.quote.value, t[j].event;
            q == Quoted(e.canonical, e.melt, e.amount, e.reserve, e.inputFee)
  {
    j := |t| - 1;
    if !(t[j].Journal? && t[j].event.ForeignQuote?) { j := QuoteWasJournaled(t[..|t| - 1], live, maxFee); }
  }

  /** Before every payment the loss is bounded as if nothing came back, and the inputs cover the invoice, the input fee
      and the reserve of the foreign quote that was journaled for it. */
  lemma PaymentWithinBudget(t: seq<Effect>, i: nat, live: u64, maxFee: u64) returns (j: nat)
    requires Audit(t, live, maxFee).Some? && i < |t| && Announces(t[i])
    ensures LastCredited(t[..i]) + t[i].event.target <= live
    ensures live - (LastCredited(t[..i]) + t[i].event.target) <= maxFee
    ensures j < i && t[j].Journal? && t[j].event.ForeignQuote?
    ensures t[j].event.canonical == t[i].event.canonical && t[j].event.melt == t[i].event.melt
    ensures t[j].event.amount == t[i].event.target
    ensures t[i].event.target + t[j].event.inputFee + t[j].event.reserve <= t[i].event.inputs
  {
    PrefixAudited(t, i + 1, live, maxFee);
    assert t[..i + 1][..i] == t[..i];
    PrefixAudited(t, i, live, maxFee);
    LedgerCounts(t[..i], live, maxFee);
    j := QuoteWasJournaled(t[..i], live, maxFee);
  }

  // When the budget fails.

  lemma {:induction false} SoughtIsWithinBudget(w: World, round: nat, attempt: nat, target: u64, total: u64,
                                                inputFee: u64, credited: nat, live: u64, maxFee: u64)
    ensures var choice := Sought(w, round, attempt, target, total, inputFee, credited, live, maxFee);
            choice.Chosen? ==> WithinBudget(live, credited + choice.quoted.amount, 0, maxFee)
    decreases QUOTES_PER_ROUND - attempt
  {
    if attempt < QUOTES_PER_ROUND {
      var reply := w.quotes(round, attempt);
      if reply.canonical.Some? && reply.foreign.Some? {
        var next := PaymentTarget(total, inputFee, reply.foreign.value.reserve);
        if next.Some? && next.value < target {
          SoughtIsWithinBudget(w, round, attempt + 1, next.value, total, inputFee, credited, live, maxFee);
        }
      }
    }
  }

  /** The round got as far as its last check, but the mint returned so much change that it ends with more than there was
      at the start of the run. */
  predicate Overpaid(w: World, round: nat, inputs: seq<Proof>, credited: nat, live: u64, maxFee: u64)
    requires Total(inputs) <= U64_MAX
  {
    && w.unspent(round) && w.inputFee(round).Some? && Melted(w, round).None?
    && Total(w.melt(round).change) <= U64_MAX && PaidInTime(w, round) && w.verified(round)
    && var choice := ChoiceOf(w, round, Total(inputs), w.inputFee(round).value, credited, live, maxFee);
       && choice.Chosen? && w.minted(round) == Some(choice.quoted.amount) && credited + choice.quoted.amount <= U64_MAX
       && credited + choice.quoted.amount + Total(w.melt(round).change) > live
  }

  /** After a payment the loss is always within budget, so the check at the end of a round refuses exactly when there is
      too much. */
  lemma BudgetFailsOnlyByExcess(w: World, round: nat, inputs: seq<Proof>, credited: nat, live: u64, maxFee: u64)
    requires Total(inputs) <= U64_MAX
    ensures RoundOf(w, round, inputs, credited, live, maxFee) == Halt(BudgetAfterRound)
       <==> Overpaid(w, round, inputs, credited, live, maxFee)
  {
    if w.inputFee(round).Some? {
      var total, fee := Total(inputs), w.inputFee(round).value;
      var first := PaymentTarget(total, fee, 0);
      if first.Some? {
        SoughtIsWithinBudget(w, round, 0, first.value, total, fee, credited, live, maxFee);
        StoppedBefore(w, round, 0, first.value, total, fee, credited, live, maxFee);
      }
    }
  }

  /** The search for an invoice stops for other reasons. */
  lemma {:induction false} StoppedBefore(w: World, round: nat, attempt: nat, target: u64, total: u64, inputFee: u64,
                                         credited: nat, live: u64, maxFee: u64)
    ensures Sought(w, round, attempt, target, total, inputFee, credited, live, maxFee) != Stopped(BudgetAfterRound)
    decreases QUOTES_PER_ROUND - attempt
  {
    if attempt < QUOTES_PER_ROUND {
      var reply := w.quotes(round, attempt);
      if reply.canonical.Some? && reply.foreign.Some? {
        var next := PaymentTarget(total, inputFee, reply.foreign.value.reserve);
        if next.Some? && next.value < target {
          StoppedBefore(w, round, attempt + 1, next.value, total, inputFee, credited, live, maxFee);
        }
      }
    }
  }

  /** A run ends over budget after a round only when the source mint returned too much. */
  lemma RunFailsOnlyByExcess(w: World, r: Result<Summary, Stop>, first: seq<Proof>, ps: seq<Position>,
                             stop: Option<Stop>, live: u64, maxFee: u64)
    requires Accounted(w, r, first, ps, stop, live, maxFee) && r == Err(BudgetAfterRound)
    ensures var end := ps[|ps| - 1]; Overpaid(w, |ps| - 1, end.inputs, end.credited, live, maxFee)
  {
    var end := ps[|ps| - 1];
    assert stop == Some(BudgetAfterRound);
    BudgetFailsOnlyByExcess(w, |ps| - 1, end.inputs, end.credited, live, maxFee);
  }

  // The lock.

  /** One start of the execute command; `crash` is the number of effects after which the process dies, if it does. */
  datatype Invocation = Invocation(
    backendStopped: bool, planSupported: bool, directoryExists: bool,
    live: u64, maxFee: u64, world: World, crash: Option<nat>)

  datatype Ending = Refused | Crashed | Failed(reason: Stop) | Done(summary: Summary)

  class WalletRoot {
    var locked: bool

    constructor ()
      ensures !locked
    {
      locked := false;
    }

    /** An existing lock refuses the run; a run that fails or dies leaves its lock behind. */
    method Invoke(call: Invocation) returns (end: Ending, t: seq<Effect>)
      modifies this
      ensures end.Refused? <==> old(locked) || !call.backendStopped || !call.planSupported || call.directoryExists
      ensures end.Refused? ==> t == [] && locked == old(locked)
      ensures end.Failed? || end.Crashed? ==> locked
      ensures end.Done? ==> !locked
      ensures Audit(t, call.live, call.maxFee).Some?
    {
      t := [];
      if !call.backendStopped { return Refused, t; }
      if !call.planSupported { return Refused, t; }
      if call.directoryExists { return Refused, t; }
      if locked { return Refused, t; }
      locked := true;
      var r;
      ghost var ps, stop;
      r, t, ps, stop := Execute(call.live, call.maxFee, call.world);
      if call.crash.Some? && call.crash.value <= |t| {
        PrefixAudited(t, call.crash.value, call.live, call.maxFee);
        return Crashed, t[..call.crash.value];
      }
      match r {
        case Err(reason) => end := Failed(reason);
        case Ok(summary) =>
          locked := false;
          end := Done(summary);
      }
    }
  }

  predicate Broken(end: Ending) { end.Failed? || end.Crashed? }

  /** Any number of invocations on one wallet: after a run that failed or died, no later one does anything at all. */
  method InvokeAll(calls: seq<Invocation>) returns (ends: seq<Ending>, traces: seq<seq<Effect>>)
    ensures |ends| == |traces| == |calls|
    ensures forall i, j :: 0 <= i < j < |calls| && Broken(ends[i]) ==> ends[j] == Refused && traces[j] == []
    ensures forall i :: 0 <= i < |calls| ==> Audit(traces[i], calls[i].live, calls[i].maxFee).Some?
  {
    var root := new WalletRoot();
    ends, traces := [], [];
    for n := 0 to |calls|
      invariant |ends| == |traces| == n
      invariant forall i :: 0 <= i < n && Broken(ends[i]) ==> root.locked
      invariant forall i, j :: 0 <= i < j < n && Broken(ends[i]) ==> ends[j] == Refused && traces[j] == []
      invariant forall i :: 0 <= i < n ==> Audit(traces[i], calls[i].live, calls[i].maxFee).Some?
    {
      var end, t := root.Invoke(calls[n]);
      ends, traces := ends + [end], traces + [t];
    }
  }
}

/** Isolation of the proofs of concurrent conversions in one foreign wallet (wallet/swap.rs). Receiving and melting are
    critical sections under the wallet lock; other operations of the wallet may run in between. */
module ForeignWallet {
  import opened Prelude
  import opened MintReplies

  datatype Proof = Proof(y: string, amount: u64)

  function AmountOf(p: Proof): nat { p.amount }

  function Ys(proofs: seq<Proof>): set<string> { set p | p in proofs :: p.y }

  function YOf(p: Proof): string { p.y }

  function KeysOf(proofs: seq<Proof>): seq<string> { Map(YOf, proofs) }

  /** The proofs that were not there before. */
  function NotBefore(before: set<string>, after: seq<Proof>): (captured: seq<Proof>)
    ensures forall p :: p in captured <==> p in after && p.y !in before
  {
    if after == [] then [] else
      var p := after[|after| - 1];
      NotBefore(before, after[..|after| - 1]) + if p.y in before then [] else [p]
  }

  method ReceivedProofs(before: seq<string>, after: seq<Proof>, received: u64) returns (r: Option<seq<Proof>>)
    ensures var captured := NotBefore(Elements(before), after);
            r == if captured != [] && Sum(AmountOf, captured) == received then Some(captured) else None
  {
    var existing := Elements(before);
    var captured := [];
    for i := 0 to |after|
      invariant captured == NotBefore(existing, after[..i])
    {
      assert after[..i + 1][..i] == after[..i];
      if after[i].y !in existing { captured := captured + [after[i]]; }
    }
    assert after[..|after|] == after;
    if captured == [] || Sum(AmountOf, captured) != received { return None; }
    return Some(captured);
  }

  datatype Held = Held(amount: u64, unspent: bool)

  /** A conversion that captured its proofs: what the wallet held just before, the proofs, and whether they were
      handed to a melt. */
  datatype Conversion = Conversion(before: set<string>, proofs: seq<Proof>, received: u64, melted: bool)

  /** `ever` holds every key the wallet has stored so far. */
  datatype Wallet = Wallet(store: map<string, Held>, ever: set<string>, conversions: map<nat, Conversion>)

  /** A listing of the unspent proofs of a store, in any order. */
  predicate Lists(listing: seq<Proof>, store: map<string, Held>) {
    && Distinct(KeysOf(listing))
    && forall p :: p in listing ==> p.y in store && store[p.y] == Held(p.amount, true)
  }

  function Added(store: map<string, Held>, proofs: seq<Proof>): (more: map<string, Held>)
    ensures more.Keys == store.Keys + Ys(proofs)
  {
    if proofs == [] then store else
      var p := proofs[|proofs| - 1];
      assert Ys(proofs) == Ys(proofs[..|proofs| - 1]) + {p.y} by { assert proofs == proofs[..|proofs| - 1] + [p]; }
      Added(store, proofs[..|proofs| - 1])[p.y := Held(p.amount, true)]
  }

  /** The critical section of receive_foreign_token: snapshot, receive, capture. The new proofs carry keys the wallet
      has never held, because their secrets are new. */
  function Receive(w: Wallet, id: nat, outputs: seq<Proof>, listing: seq<Proof>, received: u64): Wallet {
    var store := Added(w.store, outputs);
    if id in w.conversions || !(Ys(outputs) !! w.ever) || !Lists(listing, store) then w else
      var captured := NotBefore(w.store.Keys, listing);
      var t := w.(store := store, ever := w.ever + Ys(outputs));
      if captured == [] || Sum(AmountOf, captured) != received then t
      else t.(conversions := w.conversions[id := Conversion(w.store.Keys, captured, received, false)])
  }

  /** How a melt ends once the mint has confirmed its proofs: not prepared, sent without a paid answer, or paid. */
  datatype MeltEnd = NotPrepared | Unresolved | Paid(change: seq<Proof>)

  function ChangeOf(end: MeltEnd): seq<Proof> { if end.Paid? then end.change else [] }

  /** The critical section of confirm_melt_with_quote. Proofs of a paid melt leave the store and the change joins it;
      those of an unresolved one stay in it but are no longer unspent. */
  function Melt(w: Wallet, id: nat, states: seq<Reply>, end: MeltEnd): Wallet {
    if id !in w.conversions || w.conversions[id].melted || !(Ys(ChangeOf(end)) !! w.ever)
       || !RequireUnspent(KeysOf(w.conversions[id].proofs), states) || end.NotPrepared? then w
    else
      var c := w.conversions[id];
      var t := w.(conversions := w.conversions[id := c.(melted := true)]);
      match end
      case Unresolved => t.(store := Reserved(w.store, Ys(c.proofs)))
      case Paid(change) => t.(store := Added(w.store - Ys(c.proofs), change), ever := w.ever + Ys(change))
  }

  function Reserved(store: map<string, Held>, ys: set<string>): map<string, Held> {
    map y | y in store :: if y in ys then store[y].(unspent := false) else store[y]
  }

  /** Any other operation of the wallet: proofs appear with new keys, change state or are dropped. */
  function Other(w: Wallet, outputs: seq<Proof>, spent: set<string>, dropped: set<string>): Wallet {
    if !(Ys(outputs) !! w.ever) then w else
      var store := Added(w.store, outputs) - dropped;
      w.(store := Reserved(store, spent),
         ever := w.ever + Ys(outputs))
  }

  datatype Step =
    | DoReceive(id: nat, outputs: seq<Proof>, listing: seq<Proof>, received: u64)
    | DoMelt(id: nat, states: seq<Reply>, end: MeltEnd)
    | DoOther(outputs: seq<Proof>, spent: set<string>, dropped: set<string>)

  function Apply(w: Wallet, s: Step): Wallet {
    match s
    case DoReceive(id, outputs, listing, received) => Receive(w, id, outputs, listing, received)
    case DoMelt(id, states, end) => Melt(w, id, states, end)
    case DoOther(outputs, spent, dropped) => Other(w, outputs, spent, dropped)
  }

  function Run(initial: map<string, Held>, steps: seq<Step>): Wallet {
    Fold(Apply, Wallet(initial, initial.Keys, map[]), steps)
  }

  /** The wallet object behind its lock. */
  class SharedWallet {
    var wallet: Wallet

    method ReceiveForeignToken(id: nat, outputs: seq<Proof>, listing: seq<Proof>, received: u64)
      returns (r: Option<seq<Proof>>)
      requires id !in wallet.conversions && Ys(outputs) !! wallet.ever
      requires Lists(listing, Added(wallet.store, outputs))
      modifies this
      ensures wallet == Receive(old(wallet), id, outputs, listing, received)
      ensures r.Some? <==> id in wallet.conversions
      ensures r.Some? ==> wallet.conversions[id].proofs == r.value
    {
      var keys := wallet.store.Keys;
      var before := Listing(keys);
      wallet := wallet.(store := Added(wallet.store, outputs), ever := wallet.ever + Ys(outputs));
      r := ReceivedProofs(before, listing, received);
      if r.Some? {
        wallet := wallet.(conversions := wallet.conversions[id := Conversion(keys, r.value, received, false)]);
      }
    }

    /** The payment counts only when the mint reports it paid. */
    method ConfirmMelt(id: nat, states: seq<Reply>, end: MeltEnd) returns (paid: bool)
      requires id in wallet.conversions && !wallet.conversions[id].melted && Ys(ChangeOf(end)) !! wallet.ever
      modifies this
      ensures wallet == Melt(old(wallet), id, states, end)
      ensures paid <==> end.Paid? && RequireUnspent(KeysOf(old(wallet).conversions[id].proofs), states)
      ensures paid ==>
          wallet.conversions[id].melted && Ys(wallet.conversions[id].proofs) !! wallet.store.Keys - Ys(end.change)
    {
      var c := wallet.conversions[id];
      if !RequireUnspent(KeysOf(c.proofs), states) { return false; }
      if end.NotPrepared? { return false; }
      wallet := wallet.(conversions := wallet.conversions[id := c.(melted := true)]);
      if end.Unresolved? {
        wallet := wallet.(store := Reserved(wallet.store, Ys(c.proofs)));
        return false;
      }
      wallet := wallet.(store := Added(wallet.store - Ys(c.proofs), end.change), ever := wallet.ever + Ys(end.change));
      return true;
    }
  }

  method Listing(s: set<string>) returns (l: seq<string>)
    ensures Elements(l) == s
  {
    l := [];
    var rest := s;
    while rest != {}
      invariant Elements(l) + rest == s
    {
      var y :| y in rest;
      assert Elements(l + [y]) == Elements(l) + {y};
      l, rest := l + [y], rest - {y};
    }
  }

  // Isolation.

  predicate Isolated(c: Conversion, ever: set<string>, initial: set<string>) {
    && c.proofs != [] && Sum(AmountOf, c.proofs) == c.received
    && Ys(c.proofs) !! c.before && Ys(c.proofs) !! initial && Ys(c.proofs) <= ever
  }

  ghost predicate Inv(w: Wallet, initial: set<string>) {
    && w.store.Keys <= w.ever && initial <= w.ever
    && (forall id :: id in w.conversions ==> Isolated(w.conversions[id], w.ever, initial))
    && (forall i, j :: i in w.conversions && j in w.conversions && i != j ==>
          Ys(w.conversions[i].proofs) !! Ys(w.conversions[j].proofs))
  }

  /** What the capture selects was added by this very receive. */
  lemma CapturedIsNew(w: Wallet, outputs: seq<Proof>, listing: seq<Proof>)
    requires Lists(listing, Added(w.store, outputs))
    ensures Ys(NotBefore(w.store.Keys, listing)) <= Ys(outputs)
    ensures Ys(NotBefore(w.store.Keys, listing)) !! w.store.Keys
  {
    forall y | y in Ys(NotBefore(w.store.Keys, listing)) ensures y in Ys(outputs) && y !in w.store.Keys {
      var p :| p in NotBefore(w.store.Keys, listing) && p.y == y;
      assert p in listing && p.y in Added(w.store, outputs);
    }
  }

  lemma Grows(w: Wallet, store: map<string, Held>, added: set<string>, initial: set<string>)
    requires Inv(w, initial) && store.Keys <= w.ever + added
    ensures Inv(w.(store := store, ever := w.ever + added), initial)
  {
    forall i | i in w.conversions ensures Isolated(w.conversions[i], w.ever + added, initial) {
      assert Isolated(w.conversions[i], w.ever, initial);
    }
  }

  lemma CaptureKeeps(w: Wallet, id: nat, c: Conversion, initial: set<string>)
    requires Inv(w, initial) && id !in w.conversions && Isolated(c, w.ever, initial)
    requires forall i :: i in w.conversions ==> Ys(w.conversions[i].proofs) !! Ys(c.proofs)
    ensures Inv(w.(conversions := w.conversions[id := c]), initial)
  {
  }

  /** Proofs with keys the wallet never held are isolated from everything. */
  lemma NewIsIsolated(w: Wallet, added: set<string>, c: Conversion, initial: set<string>)
    requires Inv(w, initial) && added !! w.ever && Ys(c.proofs) <= added && Ys(c.proofs) !! c.before
    requires c.proofs != [] && Sum(AmountOf, c.proofs) == c.received
    ensures Isolated(c, w.ever + added, initial)
    ensures forall i :: i in w.conversions ==> Ys(w.conversions[i].proofs) !! Ys(c.proofs)
  {
    forall i | i in w.conversions ensures Ys(w.conversions[i].proofs) !! Ys(c.proofs) {
      assert Isolated(w.conversions[i], w.ever, initial);
    }
  }

  lemma ReceiveKeeps(w: Wallet, id: nat, outputs: seq<Proof>, listing: seq<Proof>, received: u64, initial: set<string>)
    requires Inv(w, initial)
    ensures Inv(Receive(w, id, outputs, listing, received), initial)
  {
    var t := Receive(w, id, outputs, listing, received);
    var store := Added(w.store, outputs);
    if id !in w.conversions && Ys(outputs) !! w.ever && Lists(listing, store) {
      var grown := w.(store := store, ever := w.ever + Ys(outputs));
      Grows(w, store, Ys(outputs), initial);
      var c := Conversion(w.store.Keys, NotBefore(w.store.Keys, listing), received, false);
      if c.proofs != [] && Sum(AmountOf, c.proofs) == received {
        CapturedIsNew(w, outputs, listing);
        NewIsIsolated(w, Ys(outputs), c, initial);
        CaptureKeeps(grown, id, c, initial);
        assert t == grown.(conversions := w.conversions[id := c]);
      } else {
        assert t == grown;
      }
    } else {
      assert t == w;
    }
  }

  lemma MeltKeeps(w: Wallet, id: nat, states: seq<Reply>, end: MeltEnd, initial: set<string>)
    requires Inv(w, initial)
    ensures Inv(Melt(w, id, states, end), initial)
  {
  }

  lemma StepKeeps(w: Wallet, s: Step, initial: set<string>)
    requires Inv(w, initial)
    ensures Inv(Apply(w, s), initial)
  {
    match s
    case DoReceive(id, outputs, listing, received) => ReceiveKeeps(w, id, outputs, listing, received, initial);
    case DoMelt(id, states, end) => MeltKeeps(w, id, states, end, initial);
    case DoOther(outputs, spent, dropped) =>
  }

  lemma RunKeeps(initial: map<string, Held>, steps: seq<Step>)
    ensures Inv(Run(initial, steps), initial.Keys)
  {
    forall w, s | Inv(w, initial.Keys) ensures Inv(Apply(w, s), initial.Keys) { StepKeeps(w, s, initial.Keys); }
    FoldKeeps(w => Inv(w, initial.Keys), Apply, Wallet(initial, initial.Keys, map[]), steps);
  }

  /** For any number of interleaved conversions the proofs captured for one of them, and so the set handed to melt, are
      disjoint from everything the wallet held before, sum to the amount received, and are disjoint from those of any
      other conversion. */
  lemma ProofIsolation(initial: map<string, Held>, steps: seq<Step>, i: nat)
    requires i in Run(initial, steps).conversions
    ensures var all := Run(initial, steps).conversions;
            && Ys(all[i].proofs) !! all[i].before && Ys(all[i].proofs) !! initial.Keys
            && Sum(AmountOf, all[i].proofs) == all[i].received && all[i].proofs != []
            && forall j :: j in all && j != i ==> Ys(all[i].proofs) !! Ys(all[j].proofs)
  {
    RunKeeps(initial, steps);
    assert Isolated(Run(initial, steps).conversions[i], Run(initial, steps).ever, initial.Keys);
  }
}

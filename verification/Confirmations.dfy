/** The chain watcher's classification of the transactions seen for a deposit (main.rs). */
module Confirmations {
  import opened Prelude
  import opened Deposits

  const PREDEPOSIT_TX_TOLERANCE_SECS: int := 600

  datatype Observation = Observation(txid: string, received: nat, confirmed: bool, height: Option<nat>,
                                     seenAt: Option<int>)

  /** Transactions confirmed well before the deposit was created do not count. */
  predicate Valid(d: Deposit, o: Observation) {
    !(o.confirmed && o.seenAt.Some? && o.seenAt.value + PREDEPOSIT_TX_TOLERANCE_SECS < d.createdAt)
  }

  function Depth(o: Observation, tip: nat): nat {
    if !o.confirmed then 0
    else if o.height.Some? && tip >= o.height.value then tip - o.height.value + 1
    else 1
  }

  predicate Covers(d: Deposit, o: Observation, tip: nat) {
    o.confirmed && Depth(o, tip) >= d.targetConfirmations
  }

  /** A transaction in a block has one confirmation for that block and one for each block on top of it; a confirmed one
      without a block in sight counts as one deep. */
  lemma DepthMeaning(o: Observation, tip: nat)
    ensures !o.confirmed ==> Depth(o, tip) == 0
    ensures o.confirmed && o.height.Some? && o.height.value <= tip ==> Depth(o, tip) + o.height.value == tip + 1
    ensures o.confirmed && (o.height.None? || o.height.value > tip) ==> Depth(o, tip) == 1
  {
  }

  /** The block of the transaction is deep enough below the tip. */
  predicate DeepEnough(o: Observation, target: nat, tip: nat) {
    o.confirmed
    && if o.height.Some? && o.height.value <= tip then o.height.value + target <= tip + 1 else target <= 1
  }

  lemma CoversExactly(d: Deposit, o: Observation, tip: nat)
    ensures Covers(d, o, tip) <==> DeepEnough(o, d.targetConfirmations, tip)
  {
    DepthMeaning(o, tip);
  }

  function DeepValue(target: nat, tip: nat): Observation -> nat {
    (o: Observation) => if DeepEnough(o, target, tip) then o.received else 0
  }

  /** A transaction is left out exactly when it confirmed more than ten minutes before the deposit was created. */
  lemma ValidExactly(d: Deposit, o: Observation)
    ensures Valid(d, o) <==> !o.confirmed || o.seenAt.None? || d.createdAt <= o.seenAt.value + 600
  {
  }

  function ValidOnes(d: Deposit, obs: seq<Observation>): (valid: seq<Observation>)
    ensures forall o :: o in valid <==> o in obs && Valid(d, o)
  {
    if obs == [] then [] else
      var o := obs[|obs| - 1];
      ValidOnes(d, obs[..|obs| - 1]) + if Valid(d, o) then [o] else []
  }

  function ReceivedOf(o: Observation): nat { o.received }

  function CoveringOf(d: Deposit, tip: nat): Observation -> nat {
    (o: Observation) => if Covers(d, o, tip) then o.received else 0
  }

  function Total(valid: seq<Observation>): nat { Sum(ReceivedOf, valid) }

  function Covering(d: Deposit, valid: seq<Observation>, tip: nat): nat {
    Sum(CoveringOf(d, tip), valid)
  }

  function Deepest(valid: seq<Observation>, tip: nat): (best: nat)
    ensures forall o :: o in valid ==> Depth(o, tip) <= best
  {
    if valid == [] then 0 else Max(Deepest(valid[..|valid| - 1], tip), Depth(valid[|valid| - 1], tip))
  }

  /** Option<DateTime> as Rust orders it: None before every time. */
  predicate NoLater(a: Option<int>, b: Option<int>) { a.None? || (b.Some? && a.value <= b.value) }

  /** The last element after a stable sort by the time of first sight. */
  function LastSeen(valid: seq<Observation>): (o: Observation)
    requires valid != []
    ensures o in valid && forall p :: p in valid ==> NoLater(p.seenAt, o.seenAt)
  {
    var last := valid[|valid| - 1];
    if |valid| == 1 then last else
      var best := LastSeen(valid[..|valid| - 1]);
      if NoLater(best.seenAt, last.seenAt) then last else best
  }

  function Classify(d: Deposit, valid: seq<Observation>, tip: nat): Finding
    requires valid != []
  {
    var total, covering, best := Total(valid), Covering(d, valid, tip), Deepest(valid, tip);
    var (next, confirmations) :=
      if total < d.amount then (PartialPaymentReceived, best)
      else if covering >= d.amount then (Minting, d.targetConfirmations)
      else (DepositState.Confirming, best);
    Finding(next, LastSeen(valid).txid, total, covering, confirmations)
  }

  /** One pass over a row. */
  function Confirmed(d: Deposit, obs: seq<Observation>, tip: nat): Deposit {
    if !Open(d) || ValidOnes(d, obs) == [] then d else ChainUpdated(d, Classify(d, ValidOnes(d, obs), tip))
  }

  method CollectValid(d: Deposit, obs: seq<Observation>) returns (valid: seq<Observation>)
    ensures valid == ValidOnes(d, obs)
  {
    valid := [];
    for i := 0 to |obs|
      invariant valid == ValidOnes(d, obs[..i])
    {
      assert obs[..i + 1][..i] == obs[..i];
      if obs[i].confirmed {
        if obs[i].seenAt.Some? && obs[i].seenAt.value + PREDEPOSIT_TX_TOLERANCE_SECS < d.createdAt { continue; }
      }
      valid := valid + [obs[i]];
    }
    assert obs[..|obs|] == obs;
  }

  /** One deposit of the pass, read as `d`. */
  method ProcessDeposit(table: DepositTable, id: nat, d: Deposit, tip: nat, obs: seq<Observation>)
    requires id < |table.rows| && table.rows[id] == d
    modifies table`rows
    ensures table.rows == old(table.rows)[id := Confirmed(d, obs, tip)]
  {
    if !Open(d) { return; }
    var valid := CollectValid(d, obs);
    if valid == [] { return; }
    table.UpdateChainState(id, Classify(d, valid, tip));
  }

  method ProcessConfirmations(table: DepositTable, tip: nat, chain: nat -> seq<Observation>)
    modifies table`rows
    ensures |table.rows| == |old(table.rows)|
    ensures forall i :: 0 <= i < |table.rows| ==> table.rows[i] == Confirmed(old(table.rows)[i], chain(i), tip)
  {
    var deposits := table.rows;
    for i := 0 to |deposits|
      invariant |table.rows| == |deposits| && deposits == old(table.rows)
      invariant forall k :: 0 <= k < i ==> table.rows[k] == Confirmed(deposits[k], chain(k), tip)
      invariant forall k :: i <= k < |deposits| ==> table.rows[k] == deposits[k]
    {
      ProcessDeposit(table, i, deposits[i], tip, chain(i));
    }
  }

  // What the classification means.

  function Phase(f: Finding): nat {
    if f.next == PartialPaymentReceived then 0 else if f.next == DepositState.Confirming then 1 else 2
  }

  lemma {:induction false} CoveringWithinTotal(d: Deposit, valid: seq<Observation>, tip: nat)
    ensures Covering(d, valid, tip) <= Total(valid)
  {
    SumMonotone(CoveringOf(d, tip), ReceivedOf, valid);
  }

  lemma CoveringByHeight(d: Deposit, valid: seq<Observation>, tip: nat)
    ensures Covering(d, valid, tip) == Sum(DeepValue(d.targetConfirmations, tip), valid)
  {
    var deep := DeepValue(d.targetConfirmations, tip);
    forall o ensures CoveringOf(d, tip)(o) == deep(o) { CoversExactly(d, o, tip); }
    SumMonotone(CoveringOf(d, tip), deep, valid);
    SumMonotone(deep, CoveringOf(d, tip), valid);
  }

  /** Minting starts exactly when the transactions deep enough below the tip alone reach the amount, and the payment is
      partial exactly when all of them together do not. */
  lemma MintingExactly(d: Deposit, valid: seq<Observation>, tip: nat)
    requires valid != []
    ensures var f, deep := Classify(d, valid, tip), Sum(DeepValue(d.targetConfirmations, tip), valid);
            && (f.next == Minting <==> deep >= d.amount)
            && (f.next == PartialPaymentReceived <==> Total(valid) < d.amount)
            && (f.next == Minting || f.next == PartialPaymentReceived || f.next == DepositState.Confirming)
            && f.covering == deep == Covering(d, valid, tip) <= f.received == Total(valid)
  {
    CoveringWithinTotal(d, valid, tip);
    CoveringByHeight(d, valid, tip);
  }

  /** The confirmations shown are those of the deepest transaction, or the target once minting starts; the txid is that
      of the transaction seen last. */
  lemma ShownExactly(d: Deposit, valid: seq<Observation>, tip: nat)
    requires valid != []
    ensures var f := Classify(d, valid, tip);
            && (f.next == Minting ==> f.confirmations == d.targetConfirmations)
            && (f.next != Minting ==>
                  && (forall o :: o in valid ==> Depth(o, tip) <= f.confirmations)
                  && (exists o :: o in valid && Depth(o, tip) == f.confirmations))
            && exists k :: 0 <= k < |valid| && valid[k].txid == f.txid
                 && (forall j :: 0 <= j < |valid| && valid[j].seenAt.Some? ==>
                       valid[k].seenAt.Some? && valid[j].seenAt.value <= valid[k].seenAt.value)
                 && (forall j :: k < j < |valid| ==>
                       valid[k].seenAt.Some?
                       && (valid[j].seenAt.None? || valid[j].seenAt.value < valid[k].seenAt.value))
  {
    var o := DeepestIsReached(valid, tip);
    var k := LastSeenAt(valid);
  }

  lemma LastSeenAt(valid: seq<Observation>) returns (k: nat)
    requires valid != []
    ensures k < |valid| && valid[k] == LastSeen(valid)
    ensures forall j :: 0 <= j < |valid| ==> NoLater(valid[j].seenAt, valid[k].seenAt)
    ensures forall j :: k < j < |valid| ==> !NoLater(valid[k].seenAt, valid[j].seenAt)
  {
    var n := |valid| - 1;
    if n == 0 || NoLater(LastSeen(valid[..n]).seenAt, valid[n].seenAt) {
      k := n;
    } else {
      k := LastSeenAt(valid[..n]);
      assert forall j :: 0 <= j < n ==> valid[..n][j] == valid[j];
    }
  }

  lemma {:induction false} ValidOnesPermutes(d: Deposit, a: seq<Observation>)
    ensures forall o :: multiset(ValidOnes(d, a))[o] == if Valid(d, o) then multiset(a)[o] else 0
  {
    if a != [] {
      ValidOnesPermutes(d, a[..|a| - 1]);
      assert a == a[..|a| - 1] + [a[|a| - 1]];
    }
  }

  lemma SameValidOnes(d: Deposit, a: seq<Observation>, b: seq<Observation>)
    requires multiset(a) == multiset(b)
    ensures multiset(ValidOnes(d, a)) == multiset(ValidOnes(d, b))
  {
    ValidOnesPermutes(d, a);
    ValidOnesPermutes(d, b);
  }

  lemma DeepestIsReached(valid: seq<Observation>, tip: nat) returns (o: Observation)
    requires valid != []
    ensures o in valid && Depth(o, tip) == Deepest(valid, tip)
  {
    o := valid[|valid| - 1];
    if |valid| > 1 && Depth(o, tip) < Deepest(valid, tip) { o := DeepestIsReached(valid[..|valid| - 1], tip); }
  }

  lemma DeepestPermutes(a: seq<Observation>, b: seq<Observation>, tip: nat)
    requires multiset(a) == multiset(b) && a != [] && b != []
    ensures Deepest(a, tip) == Deepest(b, tip)
  {
    var x := DeepestIsReached(a, tip);
    var y := DeepestIsReached(b, tip);
    assert x in multiset(b) && y in multiset(a);
  }

  lemma FindingPermutes(d: Deposit, u: seq<Observation>, v: seq<Observation>, tip: nat)
    requires multiset(u) == multiset(v) && u != [] && v != []
    ensures Classify(d, u, tip).(txid := "") == Classify(d, v, tip).(txid := "")
  {
    SumPermutation(ReceivedOf, u, v);
    SumPermutation(CoveringOf(d, tip), u, v);
    DeepestPermutes(u, v, tip);
  }

  /** The order in which the chain source reports transactions matters for nothing but the displayed txid. */
  lemma OrderIsIrrelevant(d: Deposit, a: seq<Observation>, b: seq<Observation>, tip: nat)
    requires multiset(a) == multiset(b) && ValidOnes(d, a) != []
    ensures ValidOnes(d, b) != []
    ensures Classify(d, ValidOnes(d, a), tip).(txid := "") == Classify(d, ValidOnes(d, b), tip).(txid := "")
  {
    SameValidOnes(d, a, b);
    assert ValidOnes(d, a)[0] in multiset(ValidOnes(d, b));
    FindingPermutes(d, ValidOnes(d, a), ValidOnes(d, b), tip);
  }

  /** The phase never drops when the chain grows. */
  lemma PhaseGrowsWithTip(d: Deposit, valid: seq<Observation>, tip: nat, later: nat)
    requires valid != [] && tip <= later
    ensures Phase(Classify(d, valid, tip)) <= Phase(Classify(d, valid, later))
    ensures Classify(d, valid, tip).covering <= Classify(d, valid, later).covering
  {
    SumMonotone(CoveringOf(d, tip), CoveringOf(d, later), valid);
  }

  /** Nor when one more transaction is seen, wherever it appears. */
  lemma PhaseGrowsWithObservations(d: Deposit, before: seq<Observation>, after: seq<Observation>, o: Observation,
                                   tip: nat)
    requires before + after != []
    ensures Phase(Classify(d, before + after, tip)) <= Phase(Classify(d, before + [o] + after, tip))
  {
    var received, covering := ReceivedOf, CoveringOf(d, tip);
    SumConcat(received, before, after);
    SumConcat(received, before + [o], after);
    SumConcat(received, before, [o]);
    SumConcat(covering, before, after);
    SumConcat(covering, before + [o], after);
    SumConcat(covering, before, [o]);
  }
}

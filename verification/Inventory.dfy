/** The proof inventory of the recovery plan (bin/m5_recover.rs). */
module Inventory {
  import opened Prelude

  datatype Entry = Entry(y: string, amount: u64, local: string, mint: string)

  /** A row of the wallet's proof table as it is read again before the run; a `plain` row carries no witness or key, the
      key of a `genuine` one is that of its secret. */
  datatype ProofRow = ProofRow(y: string, amount: u64, plain: bool, genuine: bool)

  predicate Spendable(e: Entry) { e.local == "UNSPENT" || e.local == "RESERVED" }

  function LiveValue(e: Entry): nat { if Spendable(e) && e.mint == "UNSPENT" then e.amount else 0 }

  function StaleValue(e: Entry): nat { if Spendable(e) && e.mint == "SPENT" then e.amount else 0 }

  function UnspentValue(e: Entry): nat { if e.mint == "UNSPENT" then e.amount else 0 }

  function UnspentOne(e: Entry): nat { if e.mint == "UNSPENT" then 1 else 0 }

  /** The combinations of local and mint state that classify accepts. */
  predicate Clear(e: Entry) {
    (Spendable(e) && (e.mint == "UNSPENT" || e.mint == "SPENT")) || (e.local == "SPENT" && e.mint == "SPENT")
  }

  /** An entry is clear exactly when wallet and mint agree that it is spent, or the wallet has it and the mint knows its
      fate; it is live when the mint has it unspent, and stale when the mint has it spent already. */
  lemma EntryExactly(e: Entry)
    ensures var clear := {("UNSPENT", "UNSPENT"), ("UNSPENT", "SPENT"), ("RESERVED", "UNSPENT"), ("RESERVED", "SPENT"),
                          ("SPENT", "SPENT")};
            Clear(e) <==> (e.local, e.mint) in clear
    ensures LiveValue(e) == if (e.local, e.mint) in {("UNSPENT", "UNSPENT"), ("RESERVED", "UNSPENT")} then e.amount
                            else 0
    ensures StaleValue(e) == if (e.local, e.mint) in {("UNSPENT", "SPENT"), ("RESERVED", "SPENT")} then e.amount else 0
  {
  }

  datatype Totals = Totals(live: u64, stale: u64)

  method Classify(entries: seq<Entry>) returns (r: Option<Totals>)
    ensures r.Some? <==>
              && (forall i :: 0 <= i < |entries| ==> Clear(entries[i]))
              && Sum(LiveValue, entries) <= U64_MAX && Sum(StaleValue, entries) <= U64_MAX
    ensures r.Some? ==> r.value.live == Sum(LiveValue, entries) && r.value.stale == Sum(StaleValue, entries)
  {
    var live: u64, stale: u64 := 0, 0;
    for i := 0 to |entries|
      invariant live == Sum(LiveValue, entries[..i]) && stale == Sum(StaleValue, entries[..i])
      invariant forall k :: 0 <= k < i ==> Clear(entries[k])
    {
      var e := entries[i];
      NextPrefix(LiveValue, entries, i);
      NextPrefix(StaleValue, entries, i);
      if Spendable(e) && e.mint == "UNSPENT" {
        var next := CheckedAdd(live, e.amount);
        if next.None? { return None; }
        live := next.value;
      } else if Spendable(e) && e.mint == "SPENT" {
        var next := CheckedAdd(stale, e.amount);
        if next.None? { return None; }
        stale := next.value;
      } else if !(e.local == "SPENT" && e.mint == "SPENT") {
        return None;
      }
    }
    assert entries[..|entries|] == entries;
    return Some(Totals(live, stale));
  }

  lemma NextPrefix<T>(weight: T -> nat, s: seq<T>, i: nat)
    requires i < |s|
    ensures Sum(weight, s[..i + 1]) == Sum(weight, s[..i]) + weight(s[i]) <= Sum(weight, s)
  {
    assert s[..i + 1][..i] == s[..i];
    assert s == s[..i + 1] + s[i + 1..];
    SumConcat(weight, s[..i + 1], s[i + 1..]);
  }

  /** Once classification has succeeded, the mint state alone tells the live proofs apart. */
  lemma LiveIsUnspentAtMint(entries: seq<Entry>)
    requires forall i :: 0 <= i < |entries| ==> Clear(entries[i])
    ensures Sum(LiveValue, entries) == Sum(UnspentValue, entries)
  {
    SumMonotone(LiveValue, UnspentValue, entries);
    SumMonotone(UnspentValue, LiveValue, entries);
  }

  function Wanted(entries: seq<Entry>): set<string> { set e | e in entries && e.mint == "UNSPENT" :: e.y }

  function Chosen(rows: seq<ProofRow>, wanted: set<string>): (chosen: seq<ProofRow>)
    ensures forall p :: p in chosen <==> p in rows && p.y in wanted
  {
    if rows == [] then [] else
      Chosen(rows[..|rows| - 1], wanted) + if rows[|rows| - 1].y in wanted then [rows[|rows| - 1]] else []
  }

  function ValueOf(p: ProofRow): nat { p.amount }

  method LoadLive(entries: seq<Entry>, live: u64, rows: seq<ProofRow>) returns (r: Option<seq<ProofRow>>)
    ensures var chosen := Chosen(rows, Wanted(entries));
            r == if (forall p :: p in chosen ==> p.plain && p.genuine)
                    && |chosen| == |Wanted(entries)| && Sum(ValueOf, chosen) == live
                 then Some(chosen) else None
  {
    var wanted := Wanted(entries);
    var out := [];
    for i := 0 to |rows|
      invariant out == Chosen(rows[..i], wanted)
      invariant forall p :: p in out ==> p.plain && p.genuine
    {
      assert rows[..i + 1][..i] == rows[..i];
      if rows[i].y !in wanted { continue; }
      if !rows[i].plain || !rows[i].genuine {
        assert rows[i] in Chosen(rows, wanted);
        return None;
      }
      out := out + [rows[i]];
    }
    assert rows[..|rows|] == rows;
    if |out| != |wanted| || Sum(ValueOf, out) != live { return None; }
    return Some(out);
  }

  /** The table still holds the proofs of the plan. */
  predicate Unchanged(entries: seq<Entry>, rows: seq<ProofRow>) {
    && |rows| == |entries|
    && forall i :: 0 <= i < |rows| ==> rows[i].y == entries[i].y && rows[i].amount == entries[i].amount
  }

  lemma {:induction false} ChosenByState(entries: seq<Entry>, rows: seq<ProofRow>, wanted: set<string>)
    requires Unchanged(entries, rows)
    requires forall i :: 0 <= i < |entries| ==> (entries[i].y in wanted <==> entries[i].mint == "UNSPENT")
    ensures Sum(ValueOf, Chosen(rows, wanted)) == Sum(UnspentValue, entries)
    ensures |Chosen(rows, wanted)| == Sum(UnspentOne, entries)
  {
    if rows != [] {
      var n := |rows| - 1;
      ChosenByState(entries[..n], rows[..n], wanted);
      var before, last := Chosen(rows[..n], wanted), rows[n];
      if last.y in wanted {
        assert Chosen(rows, wanted) == before + [last];
        SumConcat(ValueOf, before, [last]);
        SumOfTwo(ValueOf, last, last);
      } else {
        assert Chosen(rows, wanted) == before;
      }
    }
  }

  lemma {:induction false} WantedCount(entries: seq<Entry>)
    requires forall i, j :: 0 <= i < j < |entries| ==> entries[i].y != entries[j].y
    ensures |Wanted(entries)| == Sum(UnspentOne, entries)
  {
    if entries != [] {
      var n := |entries| - 1;
      var front, last := entries[..n], entries[n];
      WantedCount(front);
      assert entries == front + [last];
      if last.mint == "UNSPENT" {
        assert Wanted(entries) == Wanted(front) + {last.y};
      } else {
        assert Wanted(entries) == Wanted(front);
      }
    }
  }

  /** For a classified inventory with distinct keys whose rows are unchanged and plain, the set selected by mint state
      is complete and sums exactly to the live value: loading it cannot fail. */
  lemma UnchangedInventoryLoads(entries: seq<Entry>, rows: seq<ProofRow>, live: u64)
    requires forall i :: 0 <= i < |entries| ==> Clear(entries[i])
    requires forall i, j :: 0 <= i < j < |entries| ==> entries[i].y != entries[j].y
    requires live == Sum(LiveValue, entries)
    requires Unchanged(entries, rows)
    ensures var chosen := Chosen(rows, Wanted(entries));
            |chosen| == |Wanted(entries)| && Sum(ValueOf, chosen) == live
  {
    var wanted := Wanted(entries);
    forall i | 0 <= i < |entries| ensures entries[i].y in wanted <==> entries[i].mint == "UNSPENT" {
      if entries[i].mint == "UNSPENT" { assert entries[i] in entries; }
      if entries[i].y in wanted {
        var e :| e in entries && e.mint == "UNSPENT" && e.y == entries[i].y;
        var j :| 0 <= j < |entries| && entries[j] == e;
        assert j == i;
      }
    }
    ChosenByState(entries, rows, wanted);
    WantedCount(entries);
    LiveIsUnspentAtMint(entries);
  }
}

/** The pool of deposit addresses: compare-and-set allocation and the refill loop (address.rs, db.rs). */
module AddressPool {
  import opened Prelude

  /** A row of the addresses table; it is available as long as it belongs to no deposit. */
  datatype Address = Address(index: nat, address: string, deposit: Option<nat>)

  /** AddressFactory::derive; it fails on indices the descriptor cannot derive. */
  type Factory = nat -> Option<string>

  ghost predicate Injective(derive: Factory) {
    forall i, j :: derive(i).Some? && derive(i) == derive(j) ==> i == j
  }

  function Free(a: Address): nat { if a.deposit.None? then 1 else 0 }

  function Available(rows: seq<Address>): nat { Sum(Free, rows) }

  lemma {:induction false} AvailableExactly(rows: seq<Address>)
    ensures Available(rows) == |set i | 0 <= i < |rows| && rows[i].deposit.None?|
  {
    if rows != [] {
      var front, last := rows[..|rows| - 1], |rows| - 1;
      AvailableExactly(front);
      var before := set i | 0 <= i < |front| && front[i].deposit.None?;
      var now := set i | 0 <= i < |rows| && rows[i].deposit.None?;
      assert now == if rows[last].deposit.None? then before + {last} else before;
    }
  }

  /** COALESCE(MAX(derivation_index), -1) + 1 */
  function NextIndex(rows: seq<Address>): (next: nat)
    ensures forall a :: a in rows ==> a.index < next
    ensures rows == [] ==> next == 0
  {
    if rows == [] then 0 else Max(NextIndex(rows[..|rows| - 1]), rows[|rows| - 1].index + 1)
  }

  /** It is one above the largest index in use. */
  lemma {:induction false} NextIndexExactly(rows: seq<Address>, index: nat)
    requires rows != []
    ensures NextIndex(rows) == index + 1 <==> (exists a :: a in rows && a.index == index)
                                              && forall a :: a in rows ==> a.index <= index
  {
    if |rows| > 1 {
      var front, last := rows[..|rows| - 1], rows[|rows| - 1];
      NextIndexExactly(front, NextIndex(front) - 1);
      assert rows == front + [last];
    } else {
      assert rows[0] in rows && NextIndex([]) == 0 && rows[..0] == [];
    }
  }

  predicate Taken(rows: seq<Address>, address: string) { exists i :: 0 <= i < |rows| && rows[i].address == address }

  /** The available row with the lowest derivation index. */
  function Lowest(rows: seq<Address>): (r: Option<nat>)
    ensures r.Some? ==> r.value < |rows| && rows[r.value].deposit.None?
    ensures r.Some? ==> forall i :: 0 <= i < |rows| && rows[i].deposit.None? ==> rows[r.value].index <= rows[i].index
    ensures r.None? ==> forall i :: 0 <= i < |rows| ==> rows[i].deposit.Some?
  {
    if rows == [] then None else
      var last, best := |rows| - 1, Lowest(rows[..|rows| - 1]);
      if rows[last].deposit.Some? then best
      else if best.Some? && rows[best.value].index <= rows[last].index then best else Some(last)
  }

  /** INSERT ... ON CONFLICT(address) DO NOTHING */
  function Inserted(rows: seq<Address>, index: nat, address: string): seq<Address> {
    if Taken(rows, address) then rows else rows + [Address(index, address, None)]
  }

  /** UPDATE ... WHERE id = .. AND state = 'available' */
  function Claimed(rows: seq<Address>, id: nat, deposit: nat): seq<Address> {
    if id < |rows| && rows[id].deposit.None? then rows[id := rows[id].(deposit := Some(deposit))] else rows
  }

  // What holds of the table.

  ghost predicate Valid(rows: seq<Address>, derive: Factory) {
    && (forall i :: 0 <= i < |rows| ==> derive(rows[i].index) == Some(rows[i].address))
    && forall i, j :: 0 <= i < j < |rows| ==> rows[i].address != rows[j].address
  }

  /** No derivation index has two rows. */
  lemma IndicesDiffer(rows: seq<Address>, derive: Factory, i: nat, j: nat)
    requires Valid(rows, derive) && i < j < |rows|
    ensures rows[i].index != rows[j].index
  {
    assert rows[i].address != rows[j].address;
  }

  lemma InsertKeepsValid(rows: seq<Address>, derive: Factory, index: nat, address: string)
    requires Valid(rows, derive) && derive(index) == Some(address)
    ensures Valid(Inserted(rows, index, address), derive)
  {
  }

  /** The index could be derived, and its address is in the table. */
  ghost predicate Visited(rows: seq<Address>, derive: Factory, i: nat) {
    derive(i).Some? && Taken(rows, derive(i).value)
  }

  /** A refill of `start` has come to index `next`: it has appended available rows with the addresses of new indices,
      and has skipped no index whose address was not in the table. */
  ghost predicate Underway(start: seq<Address>, rows: seq<Address>, next: nat, derive: Factory) {
    && next >= NextIndex(start) && start <= rows
    && (forall k :: |start| <= k < |rows| ==>
          rows[k].deposit.None? && NextIndex(start) <= rows[k].index < next
          && derive(rows[k].index) == Some(rows[k].address))
    && (forall i :: NextIndex(start) <= i < next ==> Visited(rows, derive, i))
    && (Valid(start, derive) ==> Valid(rows, derive))
  }

  ghost predicate Refilled(start: seq<Address>, rows: seq<Address>, derive: Factory) {
    exists next: nat :: Underway(start, rows, next, derive)
  }

  /** The refill has ended at an index that the factory cannot derive. */
  ghost predicate BrokenOff(start: seq<Address>, rows: seq<Address>, derive: Factory) {
    exists next: nat :: Underway(start, rows, next, derive) && derive(next).None?
  }

  lemma NothingRefilled(rows: seq<Address>, derive: Factory)
    ensures Underway(rows, rows, NextIndex(rows), derive)
  {
  }

  lemma IndexVisited(start: seq<Address>, rows: seq<Address>, next: nat, address: string, derive: Factory)
    requires Underway(start, rows, next, derive) && derive(next) == Some(address)
    ensures Underway(start, Inserted(rows, next, address), next + 1, derive)
  {
    var more := Inserted(rows, next, address);
    if Valid(rows, derive) { InsertKeepsValid(rows, derive, next, address); }
    forall i | NextIndex(start) <= i < next + 1 ensures Visited(more, derive, i) {
      if i < next {
        assert Visited(rows, derive, i);
        var k :| 0 <= k < |rows| && rows[k].address == derive(i).value;
        assert more[k] == rows[k];
      } else if !Taken(rows, address) {
        assert more[|rows|].address == address;
      }
    }
  }

  /** The rows whose addresses a refill at `next` may still run into. */
  ghost function Ahead(rows: seq<Address>, derive: Factory, next: nat): set<nat> {
    set i | 0 <= i < |rows| && exists j :: next <= j && derive(j) == Some(rows[i].address)
  }

  /** Running into a taken address uses up one of them: by injectivity no later index derives it again. */
  lemma ConflictUsesOneUp(rows: seq<Address>, derive: Factory, next: nat)
    requires Injective(derive) && derive(next).Some? && Taken(rows, derive(next).value)
    ensures |Ahead(rows, derive, next + 1)| < |Ahead(rows, derive, next)|
  {
    var i :| 0 <= i < |rows| && rows[i].address == derive(next).value;
    assert Ahead(rows, derive, next + 1) <= Ahead(rows, derive, next) by {
      forall k | k in Ahead(rows, derive, next + 1) ensures k in Ahead(rows, derive, next) {
        var j :| next + 1 <= j && derive(j) == Some(rows[k].address);
      }
    }
    assert i in Ahead(rows, derive, next) && i !in Ahead(rows, derive, next + 1);
    Smaller(Ahead(rows, derive, next + 1), Ahead(rows, derive, next), i);
  }

  lemma Smaller(a: set<nat>, b: set<nat>, x: nat)
    requires a <= b && x in b && x !in a
    ensures |a| < |b|
  {
    assert b == a + (b - a) && x in b - a;
  }

  /** The deposit has been given the free row with the lowest index: of the table as it was if that had a free row, and
      otherwise of the table refilled to its target. */
  ghost predicate Assigned(start: seq<Address>, rows: seq<Address>, id: nat, deposit: nat, target: nat,
                           derive: Factory)
  {
    && id < |rows| && rows[id].deposit == Some(deposit)
    && var pool := rows[id := rows[id].(deposit := None)];
       && Lowest(pool) == Some(id)
       && if exists a :: a in start && a.deposit.None? then pool == start
          else Available(pool) == target && Refilled(start, pool, derive)
  }

  lemma AssignedIsValid(start: seq<Address>, rows: seq<Address>, id: nat, deposit: nat, target: nat, derive: Factory)
    requires Assigned(start, rows, id, deposit, target, derive) && Valid(start, derive)
    ensures Valid(rows, derive)
  {
    var pool := rows[id := rows[id].(deposit := None)];
    assert forall k :: 0 <= k < |rows| ==> rows[k].index == pool[k].index && rows[k].address == pool[k].address;
  }

  class Pool {
    var rows: seq<Address>
    const target: nat

    constructor (target: nat)
      ensures rows == [] && this.target == Max(target, 1)
    {
      rows := [];
      this.target := Max(target, 1);
    }

    method InsertAddress(index: nat, address: string) returns (inserted: bool)
      modifies this
      ensures inserted == !Taken(old(rows), address)
      ensures rows == if inserted then old(rows) + [Address(index, address, None)] else old(rows)
    {
      inserted := !Taken(rows, address);
      if inserted { rows := rows + [Address(index, address, None)]; }
    }

    method ClaimAddress(id: nat, deposit: nat) returns (claimed: bool)
      modifies this
      ensures claimed == (id < |old(rows)| && old(rows)[id].deposit.None?)
      ensures rows == if claimed then old(rows)[id := old(rows)[id].(deposit := Some(deposit))] else old(rows)
    {
      claimed := id < |rows| && rows[id].deposit.None?;
      if claimed { rows := rows[id := rows[id].(deposit := Some(deposit))]; }
    }

    /** One iteration of the refill loop. */
    method InsertDerived(next: nat, address: string, derive: Factory, ghost start: seq<Address>)
      returns (inserted: bool)
      requires derive(next) == Some(address) && Underway(start, rows, next, derive)
      requires Injective(derive)
      modifies this
      ensures Underway(start, rows, next + 1, derive)
      ensures Available(rows) == Available(old(rows)) + if inserted then 1 else 0
      ensures !inserted ==> |Ahead(rows, derive, next + 1)| < |Ahead(old(rows), derive, next)|
    {
      if Taken(rows, address) { ConflictUsesOneUp(rows, derive, next); }
      IndexVisited(start, rows, next, address, derive);
      ghost var before := rows;
      inserted := InsertAddress(next, address);
      if inserted {
        SumConcat(Free, before, [Address(next, address, None)]);
        SumOfTwo(Free, rows[|before|], rows[|before|]);
      }
    }

    /** The refill loop. Each index either gives a new row or runs into one of finitely many old addresses. */
    method Refill(derive: Factory) returns (ok: bool)
      requires Injective(derive) && Available(rows) < target
      modifies this
      ensures if ok then Available(rows) == target && Refilled(old(rows), rows, derive)
              else BrokenOff(old(rows), rows, derive)
    {
      ghost var start := rows;
      var available, next := Available(rows), NextIndex(rows);
      NothingRefilled(start, derive);
      while available < target
        invariant available == Available(rows) <= target
        invariant Underway(start, rows, next, derive)
        decreases target - available, |Ahead(rows, derive, next)|
      {
        var address := derive(next);
        if address.None? {
          assert BrokenOff(start, rows, derive);
          return false;
        }
        var inserted := InsertDerived(next, address.value, derive, start);
        available, next := if inserted then available + 1 else available, next + 1;
      }
      assert Refilled(start, rows, derive);
      return true;
    }

    /** A refill that runs alone ends with the target reached, whatever addresses the table already holds; it only
        appends available rows with new indices, and fails only where the factory does. */
    method EnsureCapacity(derive: Factory) returns (ok: bool)
      requires Injective(derive)
      modifies this
      ensures ok ==> Available(rows) == Max(Available(old(rows)), target) && Refilled(old(rows), rows, derive)
      ensures !ok ==> BrokenOff(old(rows), rows, derive)
      ensures Available(old(rows)) >= target ==> ok && rows == old(rows)
    {
      NothingRefilled(rows, derive);
      if Available(rows) >= target { return true; }
      ok := Refill(derive);
    }

    /** Allocation without interference: the free address with the lowest index, after a refill if there is none. */
    method AssignAddress(deposit: nat, derive: Factory) returns (id: Option<nat>)
      requires Injective(derive) && target > 0
      modifies this
      ensures id.None? ==> BrokenOff(old(rows), rows, derive)
      ensures id.Some? ==> Assigned(old(rows), rows, id.value, deposit, target, derive)
      ensures Valid(old(rows), derive) ==> Valid(rows, derive)
    {
      var candidate := Lowest(rows);
      if candidate.None? {
        NoneAvailable(rows);
        var ok := EnsureCapacity(derive);
        if !ok { return None; }
        candidate := Lowest(rows);
        if candidate.None? { NoneAvailable(rows); }
      }
      ghost var pool := rows;
      var claimed := ClaimAddress(candidate.value, deposit);
      assert rows[candidate.value := rows[candidate.value].(deposit := None)] == pool;
      if Valid(old(rows), derive) { AssignedIsValid(old(rows), rows, candidate.value, deposit, target, derive); }
      return candidate;
    }
  }

  lemma {:induction false} NoneAvailable(rows: seq<Address>)
    requires forall i :: 0 <= i < |rows| ==> rows[i].deposit.Some?
    ensures Available(rows) == 0
  {
    if rows != [] { NoneAvailable(rows[..|rows| - 1]); }
  }

  // Any number of allocations and refills at once, reading and writing in separate steps.

  datatype Candidate = Candidate(id: nat, deposit: nat)
  datatype Filler = Counted(available: nat) | Filling(available: nat, next: nat)
  datatype Grant = Grant(id: nat, deposit: nat)

  datatype System = System(rows: seq<Address>, candidates: map<nat, Candidate>, refills: map<nat, Filler>,
                           grants: seq<Grant>)

  datatype Step =
    | Fetch(task: nat, deposit: nat)
    | Claim(task: nat)
    | CountAvailable(task: nat)
    | ReadMaximum(task: nat)
    | Insert(task: nat, target: nat)
    | Stop(task: nat)

  function Apply(s: System, step: Step, derive: Factory): System {
    match step
    case Fetch(task, deposit) =>
      if Lowest(s.rows).None? then s
      else s.(candidates := s.candidates[task := Candidate(Lowest(s.rows).value, deposit)])
    case Claim(task) =>
      if task !in s.candidates then s else
        var c := s.candidates[task];
        var t := s.(candidates := s.candidates - {task});
        if c.id < |s.rows| && s.rows[c.id].deposit.None?
        then t.(rows := Claimed(s.rows, c.id, c.deposit), grants := s.grants + [Grant(c.id, c.deposit)]) else t
    case CountAvailable(task) => s.(refills := s.refills[task := Counted(Available(s.rows))])
    case ReadMaximum(task) =>
      if task !in s.refills || !s.refills[task].Counted? then s
      else s.(refills := s.refills[task := Filling(s.refills[task].available, NextIndex(s.rows))])
    case Insert(task, target) =>
      if task !in s.refills || !s.refills[task].Filling? || s.refills[task].available >= target then s else
        var Filling(available, next) := s.refills[task];
        if derive(next).None? then s.(refills := s.refills - {task}) else
          var address := derive(next).value;
          var more := if Taken(s.rows, address) then available else available + 1;
          s.(rows := Inserted(s.rows, next, address), refills := s.refills[task := Filling(more, next + 1)])
    case Stop(task) => s.(refills := s.refills - {task}, candidates := s.candidates - {task})
  }

  function Taking(derive: Factory): (System, Step) -> System { (s, step) => Apply(s, step, derive) }

  function Run(steps: seq<Step>, derive: Factory): System {
    Fold(Taking(derive), System([], map[], map[], []), steps)
  }

  /** Left alone, an assignment grants the free row with the lowest index, if there is one. */
  lemma UndisturbedClaim(s: System, task: nat, deposit: nat, derive: Factory)
    requires exists a :: a in s.rows && a.deposit.None?
    ensures var t := Fold(Taking(derive), s, [Fetch(task, deposit), Claim(task)]);
            && t.grants != [] && t.grants == s.grants + [Grant(t.grants[|t.grants| - 1].id, deposit)]
            && var id := t.grants[|t.grants| - 1].id;
               && id < |s.rows| && s.rows[id].deposit.None?
               && (forall k :: 0 <= k < |s.rows| && s.rows[k].deposit.None? ==> s.rows[id].index <= s.rows[k].index)
               && t.rows == s.rows[id := s.rows[id].(deposit := Some(deposit))] && t.refills == s.refills
  {
    FoldTwo(Taking(derive), s, Fetch(task, deposit), Claim(task));
  }

  /** Left alone, one round of a refill does what one iteration of its loop does, however long ago it counted. */
  lemma UndisturbedInsert(s: System, task: nat, target: nat, derive: Factory, start: seq<Address>)
    requires task in s.refills && s.refills[task].Filling?
    requires Underway(start, s.rows, s.refills[task].next, derive)
    ensures var t, next := Apply(s, Insert(task, target), derive), s.refills[task].next;
            if s.refills[task].available >= target then t == s
            else if derive(next).None? then t.rows == s.rows && task !in t.refills
            else
              && task in t.refills && t.refills[task].Filling? && t.refills[task].next == next + 1
              && Underway(start, t.rows, next + 1, derive)
              && t.refills[task].available - s.refills[task].available == |t.rows| - |s.rows|
  {
    var next := s.refills[task].next;
    if derive(next).Some? { IndexVisited(start, s.rows, next, derive(next).value, derive); }
  }

  ghost predicate Inv(s: System, derive: Factory) {
    && Valid(s.rows, derive)
    && (forall g :: 0 <= g < |s.grants| ==>
          s.grants[g].id < |s.rows| && s.rows[s.grants[g].id].deposit == Some(s.grants[g].deposit))
    && (forall g, h :: 0 <= g < h < |s.grants| ==> s.grants[g].id != s.grants[h].id)
  }

  lemma StepKeeps(s: System, step: Step, derive: Factory)
    requires Inv(s, derive)
    ensures Inv(Apply(s, step, derive), derive)
  {
  }

  lemma RunKeeps(steps: seq<Step>, derive: Factory)
    ensures Inv(Run(steps, derive), derive)
  {
    forall s, step | Inv(s, derive) ensures Inv(Apply(s, step, derive), derive) { StepKeeps(s, step, derive); }
    FoldKeeps(s => Inv(s, derive), Taking(derive), System([], map[], map[], []), steps);
  }

  /** However allocations and refills interleave, two grants never share an address, and no two rows share an address
      or a derivation index. */
  lemma NoAddressTwice(steps: seq<Step>, derive: Factory)
    ensures var s := Run(steps, derive);
            && (forall g, h :: 0 <= g < h < |s.grants| ==>
                  s.grants[g].id < |s.rows| && s.grants[h].id < |s.rows|
                  && s.rows[s.grants[g].id].address != s.rows[s.grants[h].id].address)
            && (forall i, j :: 0 <= i < j < |s.rows| ==>
                  s.rows[i].address != s.rows[j].address && s.rows[i].index != s.rows[j].index)
  {
    RunKeeps(steps, derive);
    var s := Run(steps, derive);
    forall i, j | 0 <= i < j < |s.rows| ensures s.rows[i].index != s.rows[j].index {
      IndicesDiffer(s.rows, derive, i, j);
    }
    forall g, h | 0 <= g < h < |s.grants|
      ensures s.rows[s.grants[g].id].address != s.rows[s.grants[h].id].address
    {
      var i, j := s.grants[g].id, s.grants[h].id;
      assert i != j;
      if i < j {
        assert s.rows[i].address != s.rows[j].address;
      } else {
        assert s.rows[j].address != s.rows[i].address;
      }
    }
  }

  /** An address once given to a deposit stays with it. */
  lemma {:induction false} AllocationIsFinal(steps: seq<Step>, from: nat, i: nat, derive: Factory)
    requires from <= |steps| && i < |Run(steps[..from], derive).rows|
    requires Run(steps[..from], derive).rows[i].deposit.Some?
    ensures i < |Run(steps, derive).rows| && Run(steps, derive).rows[i] == Run(steps[..from], derive).rows[i]
  {
    if from == |steps| {
      assert steps[..from] == steps;
    } else {
      assert steps[..|steps| - 1][..from] == steps[..from];
      AllocationIsFinal(steps[..|steps| - 1], from, i, derive);
    }
  }
}

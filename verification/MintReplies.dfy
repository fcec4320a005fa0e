/** Exact coverage of the mints' proof-state replies (NUT-07) and the inventory of the recovery command
    (wallet/swap.rs, bin/m5_recover.rs). Keys are the hex Y values after lower-casing. */
module MintReplies {
  import opened Prelude

  datatype Reply = Reply(y: string, state: string)

  predicate Distinct<T(==)>(s: seq<T>) { forall i, j :: 0 <= i < j < |s| ==> s[i] != s[j] }

  function Elements<T>(s: seq<T>): set<T> { set x | x in s }

  function KeyOf(r: Reply): string { r.y }

  function Keys(replies: seq<Reply>): seq<string> { Map(KeyOf, replies) }

  /** The replies are a bijection with the queried keys, which are then distinct. */
  predicate Exact(keys: seq<string>, replies: seq<Reply>) {
    Distinct(keys) && multiset(Keys(replies)) == multiset(keys)
  }

  predicate AllIn(replies: seq<Reply>, states: set<string>)
  {
    forall i :: 0 <= i < |replies| ==> replies[i].state in states
  }

  lemma {:induction false} ElementsSize<T>(s: seq<T>)
    ensures |Elements(s)| <= |s|
    ensures |Elements(s)| == |s| <==> Distinct(s)
  {
    if s != [] {
      var front, last := s[..|s| - 1], s[|s| - 1];
      ElementsSize(front);
      assert s == front + [last];
      assert Elements(s) == Elements(front) + {last};
      if last in front {
        assert Elements(s) == Elements(front);
        var i :| 0 <= i < |front| && front[i] == last;
        assert s[i] == s[|s| - 1];
      }
    }
  }

  lemma {:induction false} DistinctCounts<T>(s: seq<T>)
    requires Distinct(s)
    ensures multiset(s) == multiset(Elements(s))
  {
    if s != [] {
      var front, last := s[..|s| - 1], s[|s| - 1];
      DistinctCounts(front);
      assert s == front + [last];
      assert Elements(s) == Elements(front) + {last};
    }
  }

  /** Distinct replies, each to a queried key and as many as there are keys, leave no room for anything else. */
  lemma Pigeonhole(asked: seq<string>, answered: seq<string>)
    requires Distinct(answered) && |answered| == |asked| && forall y :: y in answered ==> y in asked
    ensures Distinct(asked) && multiset(answered) == multiset(asked)
  {
    ElementsSize(asked);
    ElementsSize(answered);
    var a, b := Elements(answered), Elements(asked);
    assert a <= b;
    assert b == a + (b - a);
    DistinctCounts(asked);
    DistinctCounts(answered);
  }

  lemma ExactMeans(keys: seq<string>, replies: seq<Reply>)
    requires Exact(keys, replies)
    ensures Distinct(Keys(replies)) && |replies| == |keys| && Elements(Keys(replies)) == Elements(keys)
  {
    var ys := Keys(replies);
    assert |multiset(ys)| == |multiset(keys)|;
    forall y ensures y in ys <==> y in keys {
      assert y in ys <==> y in multiset(ys);
      assert y in keys <==> y in multiset(keys);
    }
    ElementsSize(ys);
    ElementsSize(keys);
    assert Elements(ys) == Elements(keys);
  }

  /** require_unspent of the swap service, written with sets and sizes. */
  predicate RequireUnspent(keys: seq<string>, replies: seq<Reply>) {
    var expected, returned := Elements(keys), Elements(Keys(replies));
    !(expected == {} || |expected| != |keys| || returned != expected || |replies| != |expected|
      || exists i :: 0 <= i < |replies| && replies[i].state != "UNSPENT")
  }

  lemma RequireUnspentIsExact(keys: seq<string>, replies: seq<Reply>)
    ensures RequireUnspent(keys, replies) <==> keys != [] && Exact(keys, replies) && AllIn(replies, {"UNSPENT"})
  {
    ElementsSize(keys);
    if keys != [] { assert keys[0] in Elements(keys); }
    if RequireUnspent(keys, replies) {
      ElementsSize(Keys(replies));
      forall y ensures y in Keys(replies) ==> y in keys { assert y in Keys(replies) ==> y in Elements(Keys(replies)); }
      Pigeonhole(keys, Keys(replies));
    }
    if keys != [] && Exact(keys, replies) && AllIn(replies, {"UNSPENT"}) { ExactMeans(keys, replies); }
  }

  method VerifyStateResponse(ys: seq<string>, replies: seq<Reply>, expected: string) returns (ok: bool)
    ensures ok <==> Exact(ys, replies) && AllIn(replies, {expected})
  {
    ghost var all := Keys(replies);
    if Exact(ys, replies) { ExactMeans(ys, replies); }
    if |replies| != |ys| { return false; }
    var seen: set<string> := {};
    for i := 0 to |replies|
      invariant seen == Elements(all[..i])
      invariant Distinct(all[..i])
      invariant forall k :: 0 <= k < i ==> all[k] in ys && replies[k].state == expected
    {
      assert all[..i + 1] == all[..i] + [replies[i].y];
      if replies[i].y !in ys || replies[i].y in seen || replies[i].state != expected {
        assert all[i] == replies[i].y && all[i] in Elements(all);
        return false;
      }
      seen := seen + {replies[i].y};
    }
    assert all[..|replies|] == all;
    Pigeonhole(ys, all);
    return true;
  }

  const BATCH: nat := 100

  function Batches(ys: seq<string>): nat { (|ys| + BATCH - 1) / BATCH }

  function Batch(ys: seq<string>, b: nat): seq<string>
    requires b < Batches(ys)
  {
    ys[BATCH * b..Min(BATCH * (b + 1), |ys|)]
  }

  const FINAL_STATES := {"SPENT", "UNSPENT"}

  /** The mint answered batch `b` exactly. */
  predicate Answered(ys: seq<string>, post: nat -> Option<seq<Reply>>, b: nat)
    requires b < Batches(ys)
  {
    post(b).Some? && Exact(Batch(ys, b), post(b).value) && AllIn(post(b).value, FINAL_STATES)
  }

  /** Every reply of a batch is in the result. */
  predicate Stored(out: map<string, string>, replies: Option<seq<Reply>>) {
    replies.Some? && forall i :: 0 <= i < |replies.value| ==>
      replies.value[i].y in out && out[replies.value[i].y] == replies.value[i].state
  }

  predicate Extends(more: map<string, string>, out: map<string, string>) {
    forall y :: y in out ==> y in more && more[y] == out[y]
  }

  /** What the inner loop checks, reply by reply. */
  predicate Accepted(out: map<string, string>, batch: seq<string>, replies: seq<Reply>) {
    |replies| == |batch| && Distinct(Keys(replies)) && forall y :: y in Keys(replies) ==> y in batch && y !in out
  }

  lemma AcceptedIsExact(out: map<string, string>, batch: seq<string>, replies: seq<Reply>)
    ensures Accepted(out, batch, replies) <==> Exact(batch, replies) && out.Keys !! Elements(batch)
    ensures Accepted(out, batch, replies) ==> Elements(Keys(replies)) == Elements(batch)
  {
    var keys := Keys(replies);
    if Accepted(out, batch, replies) {
      Pigeonhole(batch, keys);
      ExactMeans(batch, replies);
      forall y | y in batch ensures y !in out { assert y in Elements(batch); assert y in Elements(keys); }
    }
    if Exact(batch, replies) && out.Keys !! Elements(batch) {
      ExactMeans(batch, replies);
      forall y | y in keys ensures y in batch && y !in out { assert y in Elements(keys); }
    }
  }

  lemma Rejects(out: map<string, string>, batch: seq<string>, replies: seq<Reply>, i: nat)
    requires i < |replies|
    requires replies[i].y !in batch || replies[i].y in out || replies[i].y in Elements(Keys(replies)[..i])
    ensures !Accepted(out, batch, replies)
  {
    assert Keys(replies)[i] == replies[i].y && Keys(replies)[i] in Keys(replies);
  }

  /** The first n replies have joined the result. */
  predicate Collected(out: map<string, string>, batch: seq<string>, replies: seq<Reply>, n: nat,
                      all: map<string, string>)
    requires n <= |replies|
  {
    && all.Keys == out.Keys + Elements(Keys(replies)[..n]) && Extends(all, out)
    && Distinct(Keys(replies)[..n])
    && forall k :: 0 <= k < n ==>
         && replies[k].y in batch && replies[k].y !in out && replies[k].state in FINAL_STATES
         && replies[k].y in all && all[replies[k].y] == replies[k].state
  }

  lemma CollectOne(out: map<string, string>, batch: seq<string>, replies: seq<Reply>, n: nat, all: map<string, string>)
    requires n < |replies| && Collected(out, batch, replies, n, all)
    requires replies[n].y in batch && replies[n].y !in all && replies[n].state in FINAL_STATES
    ensures Collected(out, batch, replies, n + 1, all[replies[n].y := replies[n].state])
  {
    assert Keys(replies)[..n + 1] == Keys(replies)[..n] + [replies[n].y];
  }

  lemma AllCollected(out: map<string, string>, batch: seq<string>, replies: seq<Reply>, all: map<string, string>)
    requires |replies| == |batch| && Collected(out, batch, replies, |replies|, all)
    ensures Accepted(out, batch, replies) && AllIn(replies, FINAL_STATES)
    ensures all.Keys == out.Keys + Elements(Keys(replies)) && Extends(all, out) && Stored(all, Some(replies))
  {
    assert Keys(replies)[..|replies|] == Keys(replies);
  }

  /** The inner loop: one batch's replies join the result. */
  method CollectBatch(out: map<string, string>, batch: seq<string>, replies: seq<Reply>)
    returns (r: Option<map<string, string>>)
    ensures r.Some? <==> Accepted(out, batch, replies) && AllIn(replies, FINAL_STATES)
    ensures r.Some? ==> r.value.Keys == out.Keys + Elements(Keys(replies))
    ensures r.Some? ==> Extends(r.value, out) && Stored(r.value, Some(replies))
  {
    if |replies| != |batch| { return None; }
    var all := out;
    for i := 0 to |replies|
      invariant Collected(out, batch, replies, i, all)
    {
      if replies[i].y !in batch || replies[i].y in all {
        Rejects(out, batch, replies, i);
        return None;
      }
      if replies[i].state !in FINAL_STATES { return None; }
      CollectOne(out, batch, replies, i, all);
      all := all[replies[i].y := replies[i].state];
    }
    AllCollected(out, batch, replies, all);
    return Some(all);
  }

  lemma DistinctJoin(a: seq<string>, b: seq<string>)
    ensures Distinct(a + b) <==> Distinct(a) && Distinct(b) && Elements(a) !! Elements(b)
  {
    var s := a + b;
    if Distinct(s) {
      forall i, j | 0 <= i < j < |a| ensures a[i] != a[j] { assert s[i] == a[i] && s[j] == a[j]; }
      forall i, j | 0 <= i < j < |b| ensures b[i] != b[j] { assert s[|a| + i] == b[i] && s[|a| + j] == b[j]; }
      forall i, j | 0 <= i < |a| && 0 <= j < |b| ensures a[i] != b[j] { assert s[i] == a[i] && s[|a| + j] == b[j]; }
    }
    if Distinct(a) && Distinct(b) && Elements(a) !! Elements(b) {
      forall i, j | 0 <= i < j < |s| ensures s[i] != s[j] {
        if i < |a| <= j { assert s[i] in Elements(a) && s[j] in Elements(b); }
      }
    }
  }

  /** The first b batches have been answered and stored. */
  ghost predicate Answers(ys: seq<string>, post: nat -> Option<seq<Reply>>, b: nat, out: map<string, string>)
    requires b <= Batches(ys)
  {
    && Distinct(ys[..Min(BATCH * b, |ys|)]) && out.Keys == Elements(ys[..Min(BATCH * b, |ys|)])
    && forall k :: 0 <= k < b ==> Answered(ys, post, k) && Stored(out, post(k))
  }

  /** Where the b-th batch lies. */
  lemma BatchExtends(ys: seq<string>, b: nat)
    requires b < Batches(ys)
    ensures BATCH * b < |ys|
    ensures ys[..Min(BATCH * (b + 1), |ys|)] == ys[..BATCH * b] + Batch(ys, b)
  {
  }

  lemma OneMoreBatch(ys: seq<string>, post: nat -> Option<seq<Reply>>, b: nat, out: map<string, string>,
                     more: map<string, string>)
    requires b < Batches(ys) && Answers(ys, post, b, out) && post(b).Some?
    requires Accepted(out, Batch(ys, b), post(b).value) && AllIn(post(b).value, FINAL_STATES)
    requires more.Keys == out.Keys + Elements(Keys(post(b).value)) && Extends(more, out) && Stored(more, post(b))
    ensures Answers(ys, post, b + 1, more)
  {
    BatchExtends(ys, b);
    AcceptedIsExact(out, Batch(ys, b), post(b).value);
    var before, batch := ys[..BATCH * b], Batch(ys, b);
    DistinctJoin(before, batch);
    assert Elements(before + batch) == Elements(before) + Elements(batch);
    forall k | 0 <= k < b ensures Stored(more, post(k)) { StoredStays(out, more, post(k)); }
  }

  lemma StoredStays(out: map<string, string>, more: map<string, string>, replies: Option<seq<Reply>>)
    requires Stored(out, replies) && Extends(more, out)
    ensures Stored(more, replies)
  {
  }

  /** A batch that is not accepted was not answered exactly, or shares a key with an earlier one. */
  lemma RejectedBatch(ys: seq<string>, post: nat -> Option<seq<Reply>>, b: nat, out: map<string, string>)
    requires b < Batches(ys) && Answers(ys, post, b, out)
    requires post(b).None? || !(Accepted(out, Batch(ys, b), post(b).value) && AllIn(post(b).value, FINAL_STATES))
    ensures !(Distinct(ys) && Answered(ys, post, b))
  {
    BatchExtends(ys, b);
    if post(b).Some? {
      AcceptedIsExact(out, Batch(ys, b), post(b).value);
      var before, batch := ys[..BATCH * b], Batch(ys, b);
      var end := Min(BATCH * (b + 1), |ys|);
      assert ys == ys[..end] + ys[end..];
      DistinctJoin(ys[..end], ys[end..]);
      DistinctJoin(before, batch);
    }
  }

  /** Success means that every batch was answered by a bijection with its keys, and that all keys are distinct. */
  method States(ys: seq<string>, post: nat -> Option<seq<Reply>>) returns (r: Option<map<string, string>>)
    ensures r.Some? <==> Distinct(ys) && forall b :: 0 <= b < Batches(ys) ==> Answered(ys, post, b)
    ensures r.Some? ==> r.value.Keys == Elements(ys) && |r.value| == |ys|
    ensures r.Some? ==> forall b :: 0 <= b < Batches(ys) ==> Stored(r.value, post(b))
  {
    var out: map<string, string> := map[];
    assert ys[..0] == [];
    for b := 0 to Batches(ys)
      invariant Answers(ys, post, b, out)
    {
      var batch := Batch(ys, b);
      if post(b).None? {
        RejectedBatch(ys, post, b, out);
        return None;
      }
      var more := CollectBatch(out, batch, post(b).value);
      if more.None? {
        RejectedBatch(ys, post, b, out);
        return None;
      }
      OneMoreBatch(ys, post, b, out, more.value);
      out := more.value;
    }
    assert ys[..|ys|] == ys;
    ElementsSize(ys);
    assert |out| == |out.Keys|;
    if |out| != |ys| { return None; }
    return Some(out);
  }
}

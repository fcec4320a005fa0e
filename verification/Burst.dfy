/** The sliding-window counter that limits session starts (http.rs). */
module Burst {
  import opened Prelude

  const SESSION_BURST_WINDOW_SECS: int := 300
  const SESSION_BURST_THRESHOLD_PER_IP: nat := 6
  const SESSION_BURST_THRESHOLD_PER_SUBNET: nat := 12

  /** The entries that survive the pruning. */
  function Recent(times: seq<int>, lower: int): seq<int> {
    if times == [] then [] else
      var front, last := Recent(times[..|times| - 1], lower), times[|times| - 1];
      if last >= lower then front + [last] else front
  }

  /** The bucket after the calls at `times`: each call prunes it and adds itself. */
  function Bucket(times: seq<int>, window: int): seq<int> {
    if times == [] then [] else
      var now := times[|times| - 1];
      Recent(Bucket(times[..|times| - 1], window), now - window) + [now]
  }

  /** A bucket of session starts after a call that counts in it or not. */
  function Updated(before: seq<int>, counted: bool, now: int): seq<int> {
    if counted then Recent(before, now - SESSION_BURST_WINDOW_SECS) + [now] else before
  }

  /** What session starts are counted by. */
  datatype Source = Client(name: string) | Subnet(name: string)

  function Limit(source: Source): nat {
    if source.Client? then SESSION_BURST_THRESHOLD_PER_IP else SESSION_BURST_THRESHOLD_PER_SUBNET
  }

  function Key(source: Source): string {
    (if source.Client? then "session_start" else "session_start_subnet") + ":" + source.name
  }

  /** The buckets of different sources are kept apart. */
  lemma KeysDiffer(a: Source, b: Source)
    requires a != b
    ensures Key(a) != Key(b)
  {
    if a.Client? && b.Client? {
      assert Key(a)[14..] == a.name && Key(b)[14..] == b.name;
    } else if a.Subnet? && b.Subnet? {
      assert Key(a)[21..] == a.name && Key(b)[21..] == b.name;
    } else {
      var client, subnet := if a.Client? then a else b, if a.Client? then b else a;
      assert Key(client)[13] == ':' && Key(subnet)[13] == '_';
    }
  }

  class BurstCounter {
    var buckets: map<string, seq<int>>

    constructor ()
      ensures buckets == map[]
    {
      buckets := map[];
    }

    function Entries(bucket: string): seq<int>
      reads this
    {
      if bucket in buckets then buckets[bucket] else []
    }

    /** The bucket of session starts of a client or a subnet. */
    function Starts(source: Source): seq<int>
      reads this
    {
      Entries(Key(source))
    }

    method DetectBurst(scope: string, key: string, now: int, window: int) returns (count: nat)
      modifies this
      ensures var bucket := scope + ":" + key;
              && Entries(bucket) == Recent(old(Entries(bucket)), now - window) + [now]
              && count == |Entries(bucket)|
              && forall other :: other != bucket ==> Entries(other) == old(Entries(other))
    {
      var bucket := scope + ":" + key;
      var entries := Recent(Entries(bucket), now - window) + [now];
      buckets := buckets[bucket := entries];
      count := |entries|;
    }

    method Count(source: Source, now: int) returns (count: nat)
      modifies this
      ensures forall other: Source :: Starts(other) == Updated(old(Starts(other)), other == source, now)
      ensures count == |Starts(source)|
    {
      forall other: Source | other != source ensures Key(other) != Key(source) { KeysDiffer(other, source); }
      var scope := if source.Client? then "session_start" else "session_start_subnet";
      count := DetectBurst(scope, source.name, now, SESSION_BURST_WINDOW_SECS);
    }

    /** Rejected calls count too; the subnet is counted only once the client itself has passed. */
    method StartSession(client: string, subnet: Option<string>, now: int) returns (accepted: bool, passed: bool)
      modifies this
      ensures passed <==> |Starts(Client(client))| < SESSION_BURST_THRESHOLD_PER_IP
      ensures forall other: Source ::
                Starts(other) == Updated(old(Starts(other)),
                                         other == Client(client)
                                             || (passed && subnet.Some? && other == Subnet(subnet.value)), now)
      ensures accepted
          <==> passed && (subnet.Some? ==> |Starts(Subnet(subnet.value))| < SESSION_BURST_THRESHOLD_PER_SUBNET)
    {
      var ipBurst := Count(Client(client), now);
      passed := ipBurst < SESSION_BURST_THRESHOLD_PER_IP;
      if ipBurst >= SESSION_BURST_THRESHOLD_PER_IP { return false, passed; }
      if subnet.Some? {
        var subnetBurst := Count(Subnet(subnet.value), now);
        if subnetBurst >= SESSION_BURST_THRESHOLD_PER_SUBNET { return false, passed; }
      }
      return true, passed;
    }
  }

  // What the bucket counts.

  predicate Ordered(times: seq<int>) { forall i, j :: 0 <= i < j < |times| ==> times[i] <= times[j] }

  function AtLeast(lower: int): int -> nat { (t: int) => if t >= lower then 1 else 0 }

  function CountFrom(times: seq<int>, lower: int): nat { Sum(AtLeast(lower), times) }

  lemma Extends(times: seq<int>, t: int, lower: int)
    ensures Recent(times + [t], lower) == if t >= lower then Recent(times, lower) + [t] else Recent(times, lower)
    ensures CountFrom(times + [t], lower) == CountFrom(times, lower) + if t >= lower then 1 else 0
    ensures Bucket(times + [t], lower) == Recent(Bucket(times, lower), t - lower) + [t]
  {
    assert (times + [t])[..|times|] == times;
  }

  lemma {:induction false} RecentTwice(times: seq<int>, low: int, high: int)
    requires low <= high
    ensures Recent(Recent(times, low), high) == Recent(times, high)
  {
    if times != [] {
      var front, last := times[..|times| - 1], times[|times| - 1];
      RecentTwice(front, low, high);
      if last >= low { Extends(Recent(front, low), last, high); }
    }
  }

  lemma {:induction false} RecentCounts(times: seq<int>, lower: int)
    ensures |Recent(times, lower)| == CountFrom(times, lower)
  {
    if times != [] { RecentCounts(times[..|times| - 1], lower); }
  }

  /** With calls in order of time, pruning loses nothing: the bucket is the part of the whole call history in the
      window that ends with the last call. */
  lemma {:induction false} BucketIsWindow(times: seq<int>, window: nat)
    requires times != [] && Ordered(times)
    ensures Bucket(times, window) == Recent(times, times[|times| - 1] - window)
    ensures |Bucket(times, window)| == CountFrom(times, times[|times| - 1] - window)
  {
    var front, now := times[..|times| - 1], times[|times| - 1];
    if front != [] {
      BucketIsWindow(front, window);
      RecentTwice(front, front[|front| - 1] - window, now - window);
    }
    RecentCounts(times, now - window);
  }

  lemma CountFromMonotone(times: seq<int>, low: int, high: int)
    requires low <= high
    ensures CountFrom(times, high) <= CountFrom(times, low)
  {
    SumMonotone(AtLeast(high), AtLeast(low), times);
  }

  lemma RoomInWindow(times: seq<int>, from: int, limit: nat)
    requires times != [] && Ordered(times)
    requires from <= times[|times| - 1] <= from + SESSION_BURST_WINDOW_SECS
    requires |Bucket(times, SESSION_BURST_WINDOW_SECS)| < limit
    ensures CountFrom(times, from) < limit
  {
    BucketIsWindow(times, SESSION_BURST_WINDOW_SECS);
    CountFromMonotone(times, times[|times| - 1] - SESSION_BURST_WINDOW_SECS, from);
  }

  /** The calls counted in one bucket that found room in it between `from` and `from` + 300 s. */
  function Roomy(times: seq<int>, limit: nat, from: int): nat {
    if times == [] then 0 else
      var now := times[|times| - 1];
      Roomy(times[..|times| - 1], limit, from)
      + if |Bucket(times, SESSION_BURST_WINDOW_SECS)| < limit && from <= now <= from + SESSION_BURST_WINDOW_SECS
        then 1 else 0
  }

  lemma {:induction false} RoomyAreCalls(times: seq<int>, limit: nat, from: int)
    ensures Roomy(times, limit, from) <= CountFrom(times, from)
  {
    if times != [] { RoomyAreCalls(times[..|times| - 1], limit, from); }
  }

  /** They are fewer than the limit. Only the order of the calls on this bucket matters, so this holds however the two
      counts of one session start interleave with those of others. */
  lemma {:induction false} RoomyBelowLimit(times: seq<int>, limit: nat, from: int)
    requires Ordered(times) && limit > 0
    ensures Roomy(times, limit, from) < limit
  {
    if times != [] {
      var now := times[|times| - 1];
      if |Bucket(times, SESSION_BURST_WINDOW_SECS)| < limit && from <= now <= from + SESSION_BURST_WINDOW_SECS {
        RoomInWindow(times, from, limit);
        RoomyAreCalls(times, limit, from);
      } else {
        RoomyBelowLimit(times[..|times| - 1], limit, from);
      }
    }
  }

  // Session starts of many clients.

  datatype Call = Call(client: string, subnet: Option<string>, now: int)

  /** A call, whether its client had room, and whether it was accepted. */
  datatype Entry = Entry(call: Call, passed: bool, accepted: bool)

  predicate IsFrom(call: Call, source: Source) {
    match source
    case Client(name) => call.client == name
    case Subnet(name) => call.subnet == Some(name)
  }

  /** A subnet is counted only once the client itself has passed. */
  predicate CountedBy(e: Entry, source: Source) { IsFrom(e.call, source) && (source.Subnet? ==> e.passed) }

  /** The times of the calls that a source is charged with. */
  function TimesOf(log: seq<Entry>, source: Source): seq<int> {
    if log == [] then [] else
      var front, last := TimesOf(log[..|log| - 1], source), log[|log| - 1];
      if CountedBy(last, source) then front + [last.call.now] else front
  }

  function Expected(log: seq<Entry>, source: Source): seq<int>
  {
    Bucket(TimesOf(log, source), SESSION_BURST_WINDOW_SECS)
  }

  predicate InOrder(calls: seq<Call>) { forall i, j :: 0 <= i < j < |calls| ==> calls[i].now <= calls[j].now }

  function CallOf(e: Entry): Call { e.call }

  function Calls(log: seq<Entry>): seq<Call> { Map(CallOf, log) }

  /** Sessions granted to a source between `from` and `from` + 300 s, both included. */
  function Granted(log: seq<Entry>, source: Source, from: int): nat {
    if log == [] then 0 else
      var last := log[|log| - 1];
      Granted(log[..|log| - 1], source, from)
      + if last.accepted && IsFrom(last.call, source) && from <= last.call.now <= from + SESSION_BURST_WINDOW_SECS
          then 1 else 0
  }

  /** Every call was accepted exactly when it found room in the buckets it is counted in. */
  predicate Limited(log: seq<Entry>) {
    log != [] ==>
      && Limited(log[..|log| - 1])
      && Admitted(log)
  }

  predicate Admitted(log: seq<Entry>)
    requires log != []
  {
    var e := log[|log| - 1];
    && (e.passed <==> |Expected(log, Client(e.call.client))| < Limit(Client(e.call.client)))
    && (e.accepted <==>
          e.passed && (e.call.subnet.Some? ==>
            |Expected(log, Subnet(e.call.subnet.value))| < Limit(Subnet(e.call.subnet.value))))
  }

  /** The calls of a source that were counted in the 300 s up to the last call, this one included. */
  function CountedNow(log: seq<Entry>, source: Source): nat
    requires log != []
  {
    CountFrom(TimesOf(log, source), log[|log| - 1].call.now - 300)
  }

  /** The last call was accepted exactly when it is at most the fifth of its client and the eleventh of its subnet. */
  predicate AcceptedExactly(log: seq<Entry>)
    requires log != []
  {
    var e := log[|log| - 1];
    e.accepted <==>
      && CountedNow(log, Client(e.call.client)) <= 5
      && (e.call.subnet.Some? ==> CountedNow(log, Subnet(e.call.subnet.value)) <= 11)
  }

  lemma ExpectedCounts(log: seq<Entry>, source: Source)
    requires log != [] && InOrder(Calls(log)) && CountedBy(log[|log| - 1], source)
    ensures |Expected(log, source)| == CountedNow(log, source)
  {
    TimesInOrder(log, source);
    BucketIsWindow(TimesOf(log, source), SESSION_BURST_WINDOW_SECS);
  }

  lemma AdmittedIsExact(log: seq<Entry>)
    requires log != [] && InOrder(Calls(log)) && Admitted(log)
    ensures AcceptedExactly(log)
  {
    var e := log[|log| - 1];
    ExpectedCounts(log, Client(e.call.client));
    if e.passed && e.call.subnet.Some? { ExpectedCounts(log, Subnet(e.call.subnet.value)); }
  }

  /** So it was with every call of the log. */
  predicate AllExact(log: seq<Entry>) { log == [] || (AllExact(log[..|log| - 1]) && AcceptedExactly(log)) }

  lemma {:induction false} LimitedIsExact(log: seq<Entry>)
    requires InOrder(Calls(log)) && Limited(log)
    ensures AllExact(log)
  {
    if log != [] {
      assert Calls(log[..|log| - 1]) == Calls(log)[..|log| - 1];
      LimitedIsExact(log[..|log| - 1]);
      AdmittedIsExact(log);
    }
  }

  lemma {:induction false} TimesInOrder(log: seq<Entry>, source: Source)
    requires InOrder(Calls(log))
    ensures Ordered(TimesOf(log, source))
    ensures forall t :: t in TimesOf(log, source) ==> exists i :: 0 <= i < |log| && log[i].call.now == t
  {
    if log != [] {
      var n, front := |log| - 1, log[..|log| - 1];
      assert Calls(front) == Calls(log)[..n];
      TimesInOrder(front, source);
      var before := TimesOf(front, source);
      forall k | 0 <= k < |before| ensures before[k] <= log[n].call.now {
        assert before[k] in before;
        var i :| 0 <= i < n && front[i].call.now == before[k];
        assert Calls(log)[i].now <= Calls(log)[n].now;
      }
      forall t | t in before ensures exists i :: 0 <= i < |log| && log[i].call.now == t {
        var i :| 0 <= i < n && front[i].call.now == t;
        assert log[i].call.now == t;
      }
    }
  }

  lemma {:induction false} GrantedWithinCalls(log: seq<Entry>, source: Source, from: int)
    requires Limited(log)
    ensures Granted(log, source, from) <= CountFrom(TimesOf(log, source), from)
  {
    if log != [] {
      GrantedWithinCalls(log[..|log| - 1], source, from);
      Extends(TimesOf(log[..|log| - 1], source), log[|log| - 1].call.now, from);
    }
  }

  /** If every accepted call found room, a source is granted fewer sessions than its limit in any window. */
  lemma {:induction false} BelowLimit(log: seq<Entry>, source: Source, from: int)
    requires InOrder(Calls(log)) && Limited(log)
    ensures Granted(log, source, from) < Limit(source)
  {
    if log != [] {
      var front, last := log[..|log| - 1], log[|log| - 1];
      assert Calls(front) == Calls(log)[..|log| - 1];
      if last.accepted && IsFrom(last.call, source) && from <= last.call.now <= from + SESSION_BURST_WINDOW_SECS {
        LastIsCounted(log, source);
        TimesInOrder(log, source);
        RoomInWindow(TimesOf(log, source), from, Limit(source));
        GrantedWithinCalls(log, source, from);
      } else {
        BelowLimit(front, source, from);
      }
    }
  }

  lemma LastIsCounted(log: seq<Entry>, source: Source)
    requires log != [] && Admitted(log) && log[|log| - 1].accepted && IsFrom(log[|log| - 1].call, source)
    ensures TimesOf(log, source) == TimesOf(log[..|log| - 1], source) + [log[|log| - 1].call.now]
    ensures |Expected(log, source)| < Limit(source)
  {
  }

  lemma NextEntry(log: seq<Entry>, e: Entry, source: Source)
    ensures Expected(log + [e], source) == Updated(Expected(log, source), CountedBy(e, source), e.call.now)
  {
    assert (log + [e])[..|log|] == log;
    Extends(TimesOf(log, source), e.call.now, SESSION_BURST_WINDOW_SECS);
  }

  /** The buckets of the session starts hold what the calls so far have left in them. */
  ghost predicate Counts(counter: BurstCounter, log: seq<Entry>)
    reads counter
  {
    forall source: Source :: counter.Starts(source) == Expected(log, source)
  }

  method ServeOne(counter: BurstCounter, call: Call, log: seq<Entry>) returns (e: Entry)
    requires Counts(counter, log)
    modifies counter
    ensures e.call == call && Counts(counter, log + [e]) && Admitted(log + [e])
  {
    var accepted, passed := counter.StartSession(call.client, call.subnet, call.now);
    e := Entry(call, passed, accepted);
    forall source: Source ensures counter.Starts(source) == Expected(log + [e], source) { NextEntry(log, e, source); }
  }

  lemma CallsExtend(log: seq<Entry>, e: Entry, calls: seq<Call>, n: nat)
    requires n < |calls| && Calls(log) == calls[..n] && e.call == calls[n]
    ensures Calls(log + [e]) == calls[..n + 1]
  {
    var more := Calls(log + [e]);
    assert forall i :: 0 <= i < n ==> more[i] == Calls(log)[i];
  }

  lemma LimitedExtends(log: seq<Entry>, e: Entry)
    requires Limited(log) && Admitted(log + [e])
    ensures Limited(log + [e])
  {
    assert (log + [e])[..|log + [e]| - 1] == log;
  }

  method ServeAll(calls: seq<Call>) returns (log: seq<Entry>)
    requires InOrder(calls)
    ensures Calls(log) == calls && Limited(log)
  {
    var counter := new BurstCounter();
    log := [];
    for n := 0 to |calls|
      invariant Calls(log) == calls[..n]
      invariant Counts(counter, log) && Limited(log)
    {
      var e := ServeOne(counter, calls[n], log);
      CallsExtend(log, e, calls, n);
      LimitedExtends(log, e);
      log := log + [e];
    }
    assert calls[..|calls|] == calls;
  }

  lemma BoundsHold(log: seq<Entry>)
    requires InOrder(Calls(log)) && Limited(log)
    ensures forall client, from :: Granted(log, Client(client), from) <= 5
    ensures forall subnet, from :: Granted(log, Subnet(subnet), from) <= 11
  {
    forall client, from ensures Granted(log, Client(client), from) <= 5 { BelowLimit(log, Client(client), from); }
    forall subnet, from ensures Granted(log, Subnet(subnet), from) <= 11 { BelowLimit(log, Subnet(subnet), from); }
  }

  /** All session starts against one counter. When the clock does not run backwards, no client is granted more than five
      sessions and no subnet more than eleven in any closed window of 300 seconds, however many calls are rejected; and
      a call is rejected only when it exceeds one of these. */
  method Serve(calls: seq<Call>) returns (log: seq<Entry>)
    requires InOrder(calls)
    ensures Calls(log) == calls
    ensures forall client, from :: Granted(log, Client(client), from) <= 5
    ensures forall subnet, from :: Granted(log, Subnet(subnet), from) <= 11
    ensures AllExact(log)
  {
    log := ServeAll(calls);
    BoundsHold(log);
    LimitedIsExact(log);
  }
}

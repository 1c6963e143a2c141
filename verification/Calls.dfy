/** The call scheduler: independent reads of one response overlap, writes are barriers. */
module Calls {
  import opened Wire

  /** The host saw a call start or finish. */
  datatype Event = Begin(call: nat) | End(call: nat)

  /** The calls running after a log of events. */
  function Running(log: seq<Event>): set<nat> {
    if log == [] then {}
    else
      var before := Running(log[..|log| - 1]);
      match log[|log| - 1]
      case Begin(n) => before + {n}
      case End(n) => before - {n}
  }

  /** The order in which calls started. */
  function Started(log: seq<Event>): seq<nat> {
    if log == [] then []
    else
      var before := Started(log[..|log| - 1]);
      match log[|log| - 1]
      case Begin(n) => before + [n]
      case End(_) => before
  }

  lemma LogSnoc(log: seq<Event>, e: Event)
    ensures Running(log + [e]) == if e.Begin? then Running(log) + {e.call} else Running(log) - {e.call}
    ensures Started(log + [e]) == if e.Begin? then Started(log) + [e.call] else Started(log)
  {
    assert (log + [e])[..|log|] == log;
  }

  /** One call after the other, until the first that fails. */
  function Serial<C, S, O, E>(invoke: (C, S) -> (S, Result<O, E>), calls: seq<C>, s: S): (S, Result<seq<O>, E>) {
    if calls == [] then (s, Ok([]))
    else
      var n := |calls| - 1;
      match Serial(invoke, calls[..n], s)
      case (t, Err(e)) => (t, Err(e))
      case (t, Ok(outputs)) =>
        match invoke(calls[n], t)
        case (u, Ok(o)) => (u, Ok(outputs + [o]))
        case (u, Err(e)) => (u, Err(e))
  }

  /** Where the scheduler's loop stands after handling what is at position i. */
  function Next<C>(isRead: C -> bool, calls: seq<C>, i: nat, maxConcurrent: int): (j: nat)
    requires i < |calls|
    ensures i <= j <= |calls|
  {
    if !isRead(calls[i]) then i + 1 else BatchEnd(isRead, calls, i, maxConcurrent)
  }

  /** The end of the batch of reads that may still take `room` calls. */
  function BatchEnd<C>(isRead: C -> bool, calls: seq<C>, i: nat, room: int): (j: nat)
    requires i <= |calls|
    ensures i <= j <= |calls| && (forall k :: i <= k < j ==> isRead(calls[k])) && (room >= 0 ==> j - i <= room)
    decreases |calls| - i
  {
    if i < |calls| && isRead(calls[i]) && 0 < room then BatchEnd(isRead, calls, i + 1, room - 1) else i
  }

  /** The loop moves on from every position exactly when the bound allows a call or there are no reads at all. */
  lemma AdvancesExactly<C>(isRead: C -> bool, calls: seq<C>, maxConcurrent: int)
    ensures (forall i :: 0 <= i < |calls| ==> Next(isRead, calls, i, maxConcurrent) > i) <==>
            maxConcurrent >= 1 || forall i :: 0 <= i < |calls| ==> !isRead(calls[i])
  {
    if maxConcurrent < 1 {
      forall i | 0 <= i < |calls| && isRead(calls[i]) ensures Next(isRead, calls, i, maxConcurrent) == i {}
    }
  }

  /** What runs is at most `max` calls, and a write runs alone. */
  predicate Fair<C>(isRead: C -> bool, calls: seq<C>, running: set<nat>, max: nat) {
    |running| <= max && forall n <- running :: n < |calls| && (!isRead(calls[n]) ==> running == {n})
  }

  /** Fair at every moment of the log. */
  ghost predicate Orderly<C>(isRead: C -> bool, calls: seq<C>, log: seq<Event>, max: nat) {
    forall k :: 0 <= k <= |log| ==> Fair(isRead, calls, Running(log[..k]), max)
  }

  lemma NothingYet<C>(isRead: C -> bool, calls: seq<C>, max: nat)
    ensures Orderly(isRead, calls, [], max)
  {
  }

  lemma OneMoreMoment<C>(isRead: C -> bool, calls: seq<C>, log: seq<Event>, e: Event, max: nat)
    requires Orderly(isRead, calls, log, max) && Fair(isRead, calls, Running(log + [e]), max)
    ensures Orderly(isRead, calls, log + [e], max)
  {
    var longer := log + [e];
    forall k | 0 <= k <= |longer| ensures Fair(isRead, calls, Running(longer[..k]), max) {
      if k == |longer| { assert longer[..k] == longer; } else { assert longer[..k] == log[..k]; }
    }
  }

  /** Calls first to first + size are reads. */
  predicate ReadsAt<C>(isRead: C -> bool, calls: seq<C>, first: nat, size: nat) {
    first + size <= |calls| && forall n :: first <= n < first + size ==> isRead(calls[n])
  }

  lemma ReadsAreFair<C>(isRead: C -> bool, calls: seq<C>, first: nat, size: nat, running: set<nat>, max: nat)
    requires ReadsAt(isRead, calls, first, size) && running <= Span(first, size) && size <= max
    ensures Fair(isRead, calls, running, max)
  {
    SmallerSet(running, Span(first, size));
  }

  /** The log of a batch of reads after its first k calls have started. */
  lemma {:induction false} LaunchOne<C>(isRead: C -> bool, calls: seq<C>, log: seq<Event>, first: nat, size: nat,
                                        k: nat, max: nat)
    requires ReadsAt(isRead, calls, first, size) && k < size <= max
    requires Orderly(isRead, calls, log, max) && Running(log) == Span(first, k)
    ensures var longer := log + [Begin(first + k)];
            && Orderly(isRead, calls, longer, max) && Running(longer) == Span(first, k + 1)
            && Started(longer) == Started(log) + [first + k]
  {
    hide Orderly, Fair, Running, Started, ReadsAt;
    LogSnoc(log, Begin(first + k));
    ReadsAreFair(isRead, calls, first, size, Running(log + [Begin(first + k)]), max);
    OneMoreMoment(isRead, calls, log, Begin(first + k), max);
  }

  /** One of the running reads of a batch finishes. */
  lemma FinishOne<C>(isRead: C -> bool, calls: seq<C>, log: seq<Event>, first: nat, size: nat, n: nat, max: nat)
    requires ReadsAt(isRead, calls, first, size) && size <= max
    requires Orderly(isRead, calls, log, max) && Running(log) <= Span(first, size)
    ensures var longer := log + [End(n)];
            && Orderly(isRead, calls, longer, max) && Running(longer) == Running(log) - {n}
               && Started(longer) == Started(log)
  {
    hide Orderly, Fair;
    LogSnoc(log, End(n));
    ReadsAreFair(isRead, calls, first, size, Running(log + [End(n)]), max);
    OneMoreMoment(isRead, calls, log, End(n), max);
  }

  /** One call alone, from start to finish. */
  lemma Alone<C>(isRead: C -> bool, calls: seq<C>, log: seq<Event>, n: nat, max: nat)
    requires n < |calls| && max >= 1 && Orderly(isRead, calls, log, max) && Running(log) == {}
    ensures var longer := log + [Begin(n)] + [End(n)];
            Orderly(isRead, calls, longer, max) && Running(longer) == {} && Started(longer) == Started(log) + [n]
  {
    LogSnoc(log, Begin(n));
    OneMoreMoment(isRead, calls, log, Begin(n), max);
    LogSnoc(log + [Begin(n)], End(n));
    OneMoreMoment(isRead, calls, log + [Begin(n)], End(n), max);
  }

  /* ----- How far reads overlap ----- */

  /** The reads in a row right before a position. */
  function ReadsBefore<C>(isRead: C -> bool, calls: seq<C>, i: nat): (n: nat)
    requires i <= |calls|
    ensures n <= i && (forall k :: i - n <= k < i ==> isRead(calls[k])) && (n < i ==> !isRead(calls[i - n - 1]))
  {
    if i > 0 && isRead(calls[i - 1]) then ReadsBefore(isRead, calls, i - 1) + 1 else 0
  }

  /** The reads in a row from a position on. */
  function ReadsFrom<C>(isRead: C -> bool, calls: seq<C>, i: nat): (n: nat)
    requires i <= |calls|
    ensures i + n <= |calls| && (forall k :: i <= k < i + n ==> isRead(calls[k]))
    ensures i + n < |calls| ==> !isRead(calls[i + n])
    decreases |calls| - i
  {
    if i < |calls| && isRead(calls[i]) then 1 + ReadsFrom(isRead, calls, i + 1) else 0
  }

  /** At some moment of the log the calls of this span run, and no others. */
  ghost predicate Together(log: seq<Event>, first: nat, size: nat) {
    exists k :: 0 <= k <= |log| && Running(log[..k]) == Span(first, size)
  }

  /** Of every run of reads that has started, the first `max` run together, then the next `max`, and so on. */
  ghost predicate Overlaps<C>(isRead: C -> bool, calls: seq<C>, log: seq<Event>, upto: nat, max: nat)
    requires upto <= |calls| && max >= 1
  {
    forall p :: 0 <= p < upto && isRead(calls[p]) && ReadsBefore(isRead, calls, p) % max == 0 ==>
      Together(log, p, Least(ReadsFrom(isRead, calls, p), max))
  }

  function Least(a: nat, b: nat): nat { if a < b then a else b }

  lemma OverlapsLater<C>(isRead: C -> bool, calls: seq<C>, log: seq<Event>, later: seq<Event>, upto: nat, max: nat)
    requires upto <= |calls| && max >= 1 && Overlaps(isRead, calls, log, upto, max) && log <= later
    ensures Overlaps(isRead, calls, later, upto, max)
  {
    hide ReadsBefore, ReadsFrom, Running;
    forall p | 0 <= p < upto && isRead(calls[p]) && ReadsBefore(isRead, calls, p) % max == 0
      ensures Together(later, p, Least(ReadsFrom(isRead, calls, p), max))
    {
      assert Together(log, p, Least(ReadsFrom(isRead, calls, p), max));
      var k :| 0 <= k <= |log| && Running(log[..k]) == Span(p, Least(ReadsFrom(isRead, calls, p), max));
      assert later[..k] == log[..k];
    }
  }

  lemma {:induction false} BatchIsWhole<C>(isRead: C -> bool, calls: seq<C>, i: nat, room: nat)
    requires i <= |calls|
    ensures BatchEnd(isRead, calls, i, room) == i + Least(ReadsFrom(isRead, calls, i), room)
    decreases |calls| - i
  {
    if i < |calls| && isRead(calls[i]) && room > 0 { BatchIsWhole(isRead, calls, i + 1, room - 1); }
  }

  lemma {:induction false} ReadsGoOn<C>(isRead: C -> bool, calls: seq<C>, i: nat, n: nat)
    requires i + n <= |calls| && forall k :: i <= k < i + n ==> isRead(calls[k])
    ensures ReadsBefore(isRead, calls, i + n) == ReadsBefore(isRead, calls, i) + n
  {
    if n > 0 { ReadsGoOn(isRead, calls, i, n - 1); }
  }

  /** A batch that has run together. */
  lemma BatchOverlaps<C>(isRead: C -> bool, calls: seq<C>, log: seq<Event>, i: nat, max: nat)
    requires i < |calls| && max >= 1 && ReadsBefore(isRead, calls, i) % max == 0
    requires Overlaps(isRead, calls, log, i, max)
    requires Together(log, i, BatchEnd(isRead, calls, i, max) - i)
    ensures var j := BatchEnd(isRead, calls, i, max);
            && Overlaps(isRead, calls, log, j, max)
            && (j < |calls| && isRead(calls[j]) ==> ReadsBefore(isRead, calls, j) % max == 0)
  {
    hide ReadsBefore, ReadsFrom, Together, BatchEnd;
    BatchIsWhole(isRead, calls, i, max);
    var j := BatchEnd(isRead, calls, i, max);
    var n := ReadsBefore(isRead, calls, i);
    forall p | i <= p <= j ensures ReadsBefore(isRead, calls, p) == n + (p - i) { ReadsGoOn(isRead, calls, i, p - i); }
    forall p | i < p < j ensures ReadsBefore(isRead, calls, p) % max != 0 { NotYetFull(n, p - i, max); }
    if j == i + max { FullAgain(n, max); }
  }

  lemma NotYetFull(n: nat, k: nat, max: nat)
    requires 0 < k < max && n % max == 0
    ensures (n + k) % max != 0
  {
    assert n == max * (n / max);
    assert n + k == max * (n / max) + k;
    assert (n + k) % max == k by { Remainder(n / max, k, max); }
  }

  lemma FullAgain(n: nat, max: nat)
    requires 0 < max && n % max == 0
    ensures (n + max) % max == 0
  {
    var q := n / max;
    assert n + max == max * (q + 1) + 0 by { assert n == max * q; }
    Remainder(q + 1, 0, max);
  }

  lemma Remainder(q: nat, k: nat, max: nat)
    requires k < max
    ensures (max * q + k) % max == k
  {
    var m := max * q + k;
    var x, y := m / max, m % max;
    assert max * (q - x) == y - k;
    if q > x { Multiple(max, q - x); }
    if q < x { Multiple(max, x - q); }
  }

  lemma Multiple(max: nat, n: nat)
    requires n >= 1
    ensures max * n >= max
  {
  }

  class Host<C(!new), S(!new), O, E> {
    const isRead: C -> bool
    const invoke: (C, S) -> (S, Result<O, E>)
    var state: S
    ghost var log: seq<Event>

    constructor (isRead: C -> bool, invoke: (C, S) -> (S, Result<O, E>), state: S)
      ensures this.isRead == isRead && this.invoke == invoke && this.state == state && log == []
    {
      this.isRead, this.invoke, this.state, this.log := isRead, invoke, state, [];
    }

    /** Starts a whole batch of reads. */
    ghost method Launch(calls: seq<C>, first: nat, size: nat, max: nat)
      requires ReadsAt(isRead, calls, first, size) && size <= max
      requires Orderly(isRead, calls, log, max) && Running(log) == {}
      modifies this`log
      ensures Orderly(isRead, calls, log, max) && Running(log) == Span(first, size)
      ensures Started(log) == Started(old(log)) + From(first, size) && old(log) <= log && Together(log, first, size)
    {
      hide Orderly, ReadsAt, Running, Started;
      for k := 0 to size
        invariant Orderly(isRead, calls, log, max) && Running(log) == Span(first, k)
        invariant Started(log) == Started(old(log)) + From(first, k) && old(log) <= log
      {
        LaunchOne(isRead, calls, log, first, size, k, max);
        log := log + [Begin(first + k)];
      }
      assert log[..|log|] == log;
    }

    /** Waits for a batch of reads to finish, in any order, and returns their outcomes in the batch's order. */
    method Join(ghost calls: seq<C>, first: nat, batch: seq<C>, ghost max: nat) returns (settled: seq<Result<O, E>>)
      requires ReadsAt(isRead, calls, first, |batch|) && |batch| <= max && batch == calls[first..first + |batch|]
      requires Preserving(isRead, invoke)
      requires Orderly(isRead, calls, log, max) && Running(log) == Span(first, |batch|)
      modifies this
      ensures state == old(state)
      ensures |settled| == |batch| && forall k :: 0 <= k < |batch| ==> settled[k] == invoke(batch[k], state).1
      ensures Orderly(isRead, calls, log, max) && Running(log) == {} && Started(log) == Started(old(log))
      ensures old(log) <= log
    {
      hide Orderly, Running, Started, Preserving, ReadsAt;
      var pending: set<nat> := Span(first, |batch|);
      var done: seq<Option<Result<O, E>>> := seq(|batch|, k => None);
      while pending != {}
        invariant state == old(state) && Started(log) == Started(old(log)) && old(log) <= log
        invariant Orderly(isRead, calls, log, max) && Running(log) == pending && pending <= Span(first, |batch|)
        invariant |done| == |batch|
        invariant forall k :: 0 <= k < |batch| && first + k !in pending ==> done[k] == Some(invoke(batch[k], state).1)
        decreases |pending|
      {
        var n :| n in pending;
        assert n in Span(first, |batch|);
        var k := n - first;
        var (next, result) := invoke(batch[k], state);
        ReadPreserves(isRead, invoke, calls, first, batch, k, state);
        state := next;
        done := done[k := Some(result)];
        FinishOne(isRead, calls, log, first, |batch|, n, max);
        log := log + [End(n)];
        pending := pending - {n};
      }
      settled := seq(|batch|, k requires 0 <= k < |batch| && done[k].Some? => done[k].value);
    }

    /** One call, alone. */
    method One(ghost calls: seq<C>, ghost n: nat, c: C, ghost max: nat) returns (r: Result<O, E>)
      requires n < |calls| && max >= 1 && Orderly(isRead, calls, log, max) && Running(log) == {}
      modifies this
      ensures (state, r) == invoke(c, old(state))
      ensures Orderly(isRead, calls, log, max) && Running(log) == {} && Started(log) == Started(old(log)) + [n]
      ensures old(log) <= log
    {
      Alone(isRead, calls, log, n, max);
      log := log + [Begin(n)];
      var (next, result) := invoke(c, state);
      state, r := next, result;
      log := log + [End(n)];
    }

    /** The outputs of a batch that has settled, up to its first failure. */
    method Outputs(ghost calls: seq<C>, ghost first: nat, ghost batch: seq<C>, settled: seq<Result<O, E>>,
                   ghost start: S, before: seq<O>)
      returns (r: Result<seq<O>, E>)
      requires ReadsAt(isRead, calls, first, |batch|) && batch == calls[first..first + |batch|]
               && Preserving(isRead, invoke)
      requires |settled| == |batch| && forall k :: 0 <= k < |batch| ==> settled[k] == invoke(batch[k], state).1
      requires Serial(invoke, calls[..first], start) == (state, Ok(before))
      ensures r.Ok? ==> Serial(invoke, calls[..first + |batch|], start) == (state, r)
      ensures r.Err? ==> Serial(invoke, calls, start) == (state, r)
    {
      hide Serial, Preserving;
      var outputs := before;
      for k := 0 to |settled|
        invariant Serial(invoke, calls[..first + k], start) == (state, Ok(outputs))
      {
        ReadPreserves(isRead, invoke, calls, first, batch, k, state);
        SerialSnoc(invoke, calls, first + k, start);
        assert calls[first + k] == batch[k];
        if settled[k].Err? {
          StopsAtFailure(invoke, calls, first + k + 1, start);
          return Err(settled[k].error);
        }
        outputs := outputs + [settled[k].value];
      }
      r := Ok(outputs);
    }

    /** Executes all calls: reads in batches of at most `maxConcurrent`, every write alone. Whatever order the reads
        of a batch finish in, the state, the outputs and the first error are those of a serial run; and of the reads
        in a row as many run together as the bound allows. */
    method ExecuteCalls(calls: seq<C>, maxConcurrent: nat) returns (r: Result<seq<O>, E>)
      requires maxConcurrent >= 1 && Preserving(isRead, invoke) && log == []
      modifies this
      ensures (state, r) == Serial(invoke, calls, old(state))
      ensures Orderly(isRead, calls, log, maxConcurrent) && Running(log) == {}
      ensures Started(log) == From(0, |Started(log)|) && (r.Ok? ==> |Started(log)| == |calls|)
      ensures |Started(log)| <= |calls| && Overlaps(isRead, calls, log, |Started(log)|, maxConcurrent)
    {
      NothingYet(isRead, calls, maxConcurrent);
      hide Overlaps, ReadsBefore, Together, Orderly, Preserving, Serial, Started, Running, From, ReadsAt;
      NoEvents();
      EmptyRun(invoke, calls, state);
      NoneBefore(isRead, calls, maxConcurrent);
      var outputs: seq<O> := [];
      var i := 0;
      ghost var start := state;
      while i < |calls|
        invariant i <= |calls| && Serial(invoke, calls[..i], start) == (state, Ok(outputs))
        invariant Running(log) == {} && Started(log) == From(0, i) && Orderly(isRead, calls, log, maxConcurrent)
        invariant Overlaps(isRead, calls, log, i, maxConcurrent)
        invariant i < |calls| && isRead(calls[i]) ==> ReadsBefore(isRead, calls, i) % maxConcurrent == 0
        decreases |calls| - i
      {
        if !isRead(calls[i]) {
          SerialSnoc(invoke, calls, i, start);
          ghost var before := log;
          var one := One(calls, i, calls[i], maxConcurrent);
          FromJoins(i, 1);
          WriteOverlaps(isRead, calls, before, log, i, maxConcurrent);
          i := i + 1;
          if one.Err? {
            StopsAtFailure(invoke, calls, i, start);
            return Err(one.error);
          }
          outputs := outputs + [one.value];
        } else {
          var first := i;
          i := BatchEnd(isRead, calls, i, maxConcurrent);
          var batch := calls[first..i];
          BatchIsReads(isRead, calls, first, i);
          FromJoins(first, |batch|);
          FromJoins(i, 0);
          ghost var before := log;
          Launch(calls, first, |batch|, maxConcurrent);
          ghost var launched := log;
          OverlapsLater(isRead, calls, before, launched, first, maxConcurrent);
          BatchOverlaps(isRead, calls, launched, first, maxConcurrent);
          var settled := Join(calls, first, batch, maxConcurrent);
          OverlapsLater(isRead, calls, launched, log, i, maxConcurrent);
          var collected := Outputs(calls, first, batch, settled, start, outputs);
          if collected.Err? { return collected; }
          outputs := collected.value;
        }
      }
      assert calls[..i] == calls;
      FromJoins(i, 0);
      r := Ok(outputs);
    }
  }

  lemma NoneBefore<C>(isRead: C -> bool, calls: seq<C>, max: nat)
    requires max >= 1
    ensures Overlaps(isRead, calls, [], 0, max) && ReadsBefore(isRead, calls, 0) % max == 0
  {
  }

  /** A write passes; what follows it starts anew. */
  lemma WriteOverlaps<C>(isRead: C -> bool, calls: seq<C>, log: seq<Event>, later: seq<Event>, i: nat, max: nat)
    requires i < |calls| && max >= 1 && !isRead(calls[i]) && Overlaps(isRead, calls, log, i, max) && log <= later
    ensures Overlaps(isRead, calls, later, i + 1, max) && ReadsBefore(isRead, calls, i + 1) % max == 0
  {
    OverlapsLater(isRead, calls, log, later, i, max);
  }

  lemma FromJoins(a: nat, n: nat)
    ensures From(0, a) + From(a, n) == From(0, a + n) && From(a, 1) == [a] && |From(0, a)| == a
  {
  }

  lemma BatchIsReads<C>(isRead: C -> bool, calls: seq<C>, first: nat, end: nat)
    requires first <= end <= |calls| && forall k :: first <= k < end ==> isRead(calls[k])
    ensures ReadsAt(isRead, calls, first, end - first)
  {
  }

  lemma NoEvents()
    ensures Running([]) == {} && Started([]) == From(0, 0)
  {
  }

  lemma EmptyRun<C, S, O, E>(invoke: (C, S) -> (S, Result<O, E>), calls: seq<C>, s: S)
    ensures Serial(invoke, calls[..0], s) == (s, Ok([]))
  {
  }

  lemma SerialSnoc<C, S, O, E>(invoke: (C, S) -> (S, Result<O, E>), calls: seq<C>, n: nat, s: S)
    requires n < |calls| && Serial(invoke, calls[..n], s).1.Ok?
    ensures var (t, r) := Serial(invoke, calls[..n], s);
            var (u, o) := invoke(calls[n], t);
            Serial(invoke, calls[..n + 1], s) == (u, if o.Ok? then Ok(r.value + [o.value]) else Err(o.error))
  {
    assert calls[..n + 1][..n] == calls[..n];
  }

  lemma ReadPreserves<C(!new), S(!new), O, E>(isRead: C -> bool, invoke: (C, S) -> (S, Result<O, E>), calls: seq<C>,
                                              first: nat, batch: seq<C>, k: nat, s: S)
    requires ReadsAt(isRead, calls, first, |batch|) && batch == calls[first..first + |batch|] && k < |batch|
    requires Preserving(isRead, invoke)
    ensures invoke(batch[k], s).0 == s && batch[k] == calls[first + k]
  {
    assert batch[k] == calls[first + k];
  }

  /** Reads leave the state as it is. */
  ghost predicate Preserving<C(!new), S(!new), O, E>(isRead: C -> bool, invoke: (C, S) -> (S, Result<O, E>)) {
    forall c, s :: isRead(c) ==> invoke(c, s).0 == s
  }

  function From(first: nat, n: nat): seq<nat> { seq(n, k => first + k) }

  /** The n calls from `first` on. */
  function Span(first: nat, n: nat): (r: set<nat>)
    ensures forall k :: k in r <==> first <= k < first + n
    ensures |r| == n
  {
    if n == 0 then {} else Span(first, n - 1) + {first + n - 1}
  }

  lemma SmallerSet(a: set<nat>, b: set<nat>)
    requires a <= b
    ensures |a| <= |b|
  {
    assert b == a + (b - a);
  }

  /** A serial run ends at its first failure. */
  lemma {:induction false} StopsAtFailure<C, S, O, E>(invoke: (C, S) -> (S, Result<O, E>), calls: seq<C>, n: nat, s: S)
    requires n <= |calls| && Serial(invoke, calls[..n], s).1.Err?
    ensures Serial(invoke, calls, s) == Serial(invoke, calls[..n], s)
    decreases |calls|
  {
    if n == |calls| {
      assert calls[..n] == calls;
    } else {
      var front := calls[..|calls| - 1];
      assert front[..n] == calls[..n];
      StopsAtFailure(invoke, front, n, s);
    }
  }
}

/** The bounded worker pool behind parallel selection: channel-fed workers, a semaphore shared with other
    requests, and a peak counter kept by compare-and-swap. Every schedule is a sequence of labels. */
module Pool {
  import opened Wire
  import opened Sorting

  /** Permits of the shared semaphore, and the most workers of one pool. */
  const PERMITS: nat := 22

  datatype Metrics = Metrics(calls: nat, duration: nat, usageCalls: nat, inputTokens: nat, outputTokens: nat)

  const NOTHING := Metrics(0, 0, 0, 0, 0)

  datatype Item<A> = Item(index: nat, outcome: Result<A, Failure>, metrics: Metrics)

  /** Where a worker stands; `mine` is the active count it was told, `seen` the peak it loaded. */
  datatype Phase<A> =
    | Idle
    | Took(index: nat)
    | Waiting(index: nat)
    | Permitted(index: nat)
    | Counted(index: nat, mine: nat)
    | Loaded(index: nat, mine: nat, seen: nat)
    | Calling(index: nat)
    | Called(item: Item<A>)
    | Left(item: Item<A>)
    | Sending(item: Item<A>)
    | Quit

  /** `high` records the largest number ever active; the program does not keep it. */
  datatype State<A> = State(
    n: nat, jobs: seq<nat>, workers: seq<Phase<A>>, results: seq<Item<A>>, received: seq<Item<A>>,
    permits: nat, others: nat, active: nat, peak: nat, high: nat, cancelled: bool)

  datatype Label<A> =
    | Take(w: nat)
    | Check(w: nat)
    | Acquire(w: nat)
    | GiveUp(w: nat)
    | Add(w: nat)
    | Load(w: nat)
    | Swap(w: nat)
    | Respond(w: nat, outcome: Result<A, Failure>, metrics: Metrics)
    | Leave(w: nat)
    | Release(w: nat)
    | Send(w: nat)
    | Receive
    | Cancel
    | OthersTake
    | OthersGive

  const STOPPED := Failure(504, "DEADLINE_EXCEEDED")

  function Init<A>(n: nat): State<A> {
    State(n, Range(n), seq(if n < PERMITS then n else PERMITS, i => Idle), [], [], 0, 0, 0, 0, 0, false)
  }

  function To<A>(s: State<A>, w: nat, phase: Phase<A>): State<A>
    requires w < |s.workers|
  {
    s.(workers := s.workers[w := phase])
  }

  function Max(a: nat, b: nat): nat { if a < b then b else a }

  /** One step of worker w; a label that does not apply changes nothing. */
  function WorkerStep<A>(s: State<A>, w: nat, l: Label<A>): State<A>
    requires w < |s.workers|
  {
    match (s.workers[w], l)
    case (Idle, Take(_)) => if s.jobs == [] then To(s, w, Quit) else To(s, w, Took(s.jobs[0])).(jobs := s.jobs[1..])
    case (Took(i), Check(_)) => To(s, w, if s.cancelled then Sending(Item(i, Err(STOPPED), NOTHING)) else Waiting(i))
    case (Waiting(i), Acquire(_)) =>
      if s.permits + s.others < PERMITS then To(s, w, Permitted(i)).(permits := s.permits + 1) else s
    case (Waiting(i), GiveUp(_)) => if s.cancelled then To(s, w, Sending(Item(i, Err(STOPPED), NOTHING))) else s
    case (Permitted(i), Add(_)) =>
      To(s, w, Counted(i, s.active + 1)).(active := s.active + 1, high := Max(s.high, s.active + 1))
    case (Counted(i, mine), Load(_)) => To(s, w, if s.peak >= mine then Calling(i) else Loaded(i, mine, s.peak))
    case (Loaded(i, mine, seen), Swap(_)) =>
      if s.peak == seen then To(s, w, Calling(i)).(peak := mine) else To(s, w, Counted(i, mine))
    case (Calling(i), Respond(_, outcome, metrics)) => To(s, w, Called(Item(i, outcome, metrics)))
    case (Called(item), Leave(_)) => if s.active > 0 then To(s, w, Left(item)).(active := s.active - 1) else s
    case (Left(item), Release(_)) => if s.permits > 0 then To(s, w, Sending(item)).(permits := s.permits - 1) else s
    case (Sending(item), Send(_)) => if |s.results| < s.n then To(s, w, Idle).(results := s.results + [item]) else s
    case _ => s
  }

  function Step<A>(s: State<A>, l: Label<A>): State<A> {
    match l
    case Receive =>
      if s.results != [] && |s.received| < s.n then
        s.(received := s.received + [s.results[0]], results := s.results[1..])
      else s
    case Cancel => s.(cancelled := true)
    case OthersTake => if s.permits + s.others < PERMITS then s.(others := s.others + 1) else s
    case OthersGive => if s.others > 0 then s.(others := s.others - 1) else s
    case _ => if l.w < |s.workers| then WorkerStep(s, l.w, l) else s
  }

  function Run<A>(n: nat, labels: seq<Label<A>>): State<A> {
    if labels == [] then Init(n) else Step(Run(n, labels[..|labels| - 1]), labels[|labels| - 1])
  }

  /* ----- Invariants ----- */

  /** The index a worker is busy with. */
  function HeldBy<A>(p: Phase<A>): seq<nat> {
    match p
    case Idle => []
    case Quit => []
    case Called(item) => [item.index]
    case Left(item) => [item.index]
    case Sending(item) => [item.index]
    case _ => [p.index]
  }

  predicate Races<A>(p: Phase<A>) { p.Counted? || p.Loaded? }

  predicate Active<A>(p: Phase<A>) { Races(p) || p.Calling? || p.Called? }

  predicate HasPermit<A>(p: Phase<A>) { p.Permitted? || Active(p) || p.Left? }

  function One(b: bool): seq<()> { if b then [()] else [] }

  function ActiveOf<A>(p: Phase<A>): seq<()> { One(Active(p)) }

  function PermitOf<A>(p: Phase<A>): seq<()> { One(HasPermit(p)) }

  function IndexOf<A>(item: Item<A>): seq<nat> { [item.index] }

  function Held<A>(workers: seq<Phase<A>>): seq<nat> { Gather(HeldBy, workers) }

  function Indices<A>(items: seq<Item<A>>): seq<nat> { Gather(IndexOf, items) }

  function CountActive<A>(workers: seq<Phase<A>>): nat { |Gather(ActiveOf, workers)| }

  function CountPermits<A>(workers: seq<Phase<A>>): nat { |Gather(PermitOf, workers)| }

  /** In how many places an index is. */
  function Places<A>(s: State<A>, i: nat): nat {
    multiset(s.jobs)[i] + multiset(Held(s.workers))[i]
    + multiset(Indices(s.results))[i] + multiset(Indices(s.received))[i]
  }

  /** Every index is in exactly one place: still queued, with one worker, in the result channel, or received. */
  ghost predicate Conserved<A>(s: State<A>) { forall i: nat :: Places(s, i) == if i < s.n then 1 else 0 }

  predicate Counters<A>(s: State<A>) {
    && s.active == CountActive(s.workers) && s.permits == CountPermits(s.workers)
    && s.permits + s.others <= PERMITS
  }

  /** The peak lags behind the highest count only while the worker that reached it is still publishing it. */
  predicate Peaks<A>(s: State<A>) {
    && s.active <= s.high <= PERMITS && s.peak <= s.high
    && (forall w :: 0 <= w < |s.workers| && Races(s.workers[w]) ==> s.workers[w].mine <= s.high)
    && (forall w :: 0 <= w < |s.workers| && s.workers[w].Loaded? ==> s.workers[w].seen < s.workers[w].mine)
    && (s.peak < s.high ==> Publishing(s))
  }

  predicate Publishing<A>(s: State<A>) {
    exists w :: 0 <= w < |s.workers| && Races(s.workers[w]) && s.workers[w].mine == s.high
  }

  /** There are workers while there are jobs, and they stop only when the jobs are gone. */
  predicate Manned<A>(s: State<A>) {
    && (s.n > 0 ==> |s.workers| > 0)
    && (forall w :: 0 <= w < |s.workers| && s.workers[w].Quit? ==> s.jobs == [])
  }

  ghost predicate Inv<A>(s: State<A>) { Conserved(s) && Counters(s) && Peaks(s) && Manned(s) }

  /* ----- Every step keeps them ----- */

  function Here(p: seq<nat>, i: nat): nat { if i in p then 1 else 0 }

  lemma HeldTo<A>(workers: seq<Phase<A>>, w: nat, p: Phase<A>, i: nat)
    requires w < |workers|
    ensures multiset(Held(workers[w := p]))[i] + Here(HeldBy(workers[w]), i) ==
            multiset(Held(workers))[i] + Here(HeldBy(p), i)
  {
    GatherUpdate(HeldBy, workers, w, p);
    OneHere(HeldBy(p), i);
    OneHere(HeldBy(workers[w]), i);
    var a, b := multiset(Held(workers[w := p])) + multiset(HeldBy(workers[w])),
        multiset(Held(workers)) + multiset(HeldBy(p));
    assert a[i] == b[i];
  }

  lemma OneHere(p: seq<nat>, i: nat)
    requires |p| <= 1
    ensures multiset(p)[i] == Here(p, i)
  {
    if p != [] { assert p == [p[0]]; }
  }

  lemma CountTo<A>(workers: seq<Phase<A>>, w: nat, p: Phase<A>)
    requires w < |workers|
    ensures CountActive(workers[w := p]) + (if Active(workers[w]) then 1 else 0) ==
            CountActive(workers) + (if Active(p) then 1 else 0)
    ensures CountPermits(workers[w := p]) + (if HasPermit(workers[w]) then 1 else 0) ==
            CountPermits(workers) + (if HasPermit(p) then 1 else 0)
  {
    GatherUpdate(ActiveOf, workers, w, p);
    GatherUpdate(PermitOf, workers, w, p);
  }

  /** Whoever is active holds a permit. */
  lemma {:induction false} ActiveHasPermit<A>(workers: seq<Phase<A>>)
    ensures CountActive(workers) <= CountPermits(workers)
    ensures (exists w :: 0 <= w < |workers| && workers[w].Permitted?) ==> CountActive(workers) < CountPermits(workers)
  {
    if workers != [] {
      ActiveHasPermit(workers[..|workers| - 1]);
      if w :| 0 <= w < |workers| && workers[w].Permitted? && w < |workers| - 1 {
        assert workers[..|workers| - 1][w].Permitted?;
      }
    }
  }

  lemma IndicesSnoc<A>(items: seq<Item<A>>, item: Item<A>, i: nat)
    ensures multiset(Indices(items + [item]))[i] == multiset(Indices(items))[i] + (if i == item.index then 1 else 0)
  {
  }

  lemma IndicesCons<A>(items: seq<Item<A>>, i: nat)
    requires items != []
    ensures multiset(Indices(items))[i] == multiset(Indices(items[1..]))[i] + (if i == items[0].index then 1 else 0)
  {
    hide Gather;
    GatherSplit(IndexOf, items, 0);
    assert items[..0] + items[0 + 1..] == items[1..];
    assert multiset(IndexOf(items[0])) == multiset{items[0].index};
  }

  lemma JobsCons(jobs: seq<nat>, i: nat)
    requires jobs != []
    ensures multiset(jobs)[i] == multiset(jobs[1..])[i] + (if i == jobs[0] then 1 else 0)
  {
    assert jobs == [jobs[0]] + jobs[1..];
  }

  lemma WorkerConserves<A>(s: State<A>, w: nat, l: Label<A>)
    requires Conserved(s) && w < |s.workers|
    ensures Conserved(WorkerStep(s, w, l))
  {
    hide Places, WorkerStep;
    forall i: nat ensures Places(WorkerStep(s, w, l), i) == Places(s, i) { WorkerPlaces(s, w, l, i); }
    SameN(s, w, l);
  }

  lemma SameN<A>(s: State<A>, w: nat, l: Label<A>)
    requires w < |s.workers|
    ensures WorkerStep(s, w, l).n == s.n
  {
  }

  lemma WorkerPlaces<A>(s: State<A>, w: nat, l: Label<A>, i: nat)
    requires w < |s.workers|
    ensures Places(WorkerStep(s, w, l), i) == Places(s, i)
  {
    hide Held, Indices, HeldBy, Places;
    var t := WorkerStep(s, w, l);
    if t != s {
      Becomes(s, w, l);
      var x := t.workers[w];
      if s.workers[w].Idle? && s.jobs != [] {
        JobsCons(s.jobs, i);
        Shift(s, t, w, x, i);
      } else if s.workers[w].Sending? {
        IndicesSnoc(s.results, s.workers[w].item, i);
        Shift(s, t, w, x, i);
      } else {
        Shift(s, t, w, x, i);
      }
    }
  }

  /** What a step of one worker does to the three places it can touch. */
  lemma Becomes<A>(s: State<A>, w: nat, l: Label<A>)
    requires w < |s.workers| && WorkerStep(s, w, l) != s
    ensures var t := WorkerStep(s, w, l);
            && |t.workers| == |s.workers| && t.workers == s.workers[w := t.workers[w]] && t.received == s.received
            && (if s.workers[w].Idle? && s.jobs != [] then
                  t.jobs == s.jobs[1..] && t.results == s.results && HeldBy(s.workers[w]) == []
                      && HeldBy(t.workers[w]) == [s.jobs[0]]
                else if s.workers[w].Sending? then
                  t.jobs == s.jobs && t.results == s.results + [s.workers[w].item]
                  && HeldBy(s.workers[w]) == [s.workers[w].item.index] && HeldBy(t.workers[w]) == []
                else t.jobs == s.jobs && t.results == s.results && HeldBy(t.workers[w]) == HeldBy(s.workers[w]))
  {
  }

  lemma Shift<A>(s: State<A>, t: State<A>, w: nat, x: Phase<A>, i: nat)
    requires w < |s.workers| && t.workers == s.workers[w := x] && t.received == s.received
    requires multiset(t.jobs)[i] + Here(HeldBy(x), i) + multiset(Indices(t.results))[i] ==
             multiset(s.jobs)[i] + Here(HeldBy(s.workers[w]), i) + multiset(Indices(s.results))[i]
    ensures Places(t, i) == Places(s, i)
  {
    hide Held, Indices, HeldBy, Here;
    HeldTo(s.workers, w, x, i);
  }

  lemma WorkerCounts<A>(s: State<A>, w: nat, l: Label<A>)
    requires Counters(s) && w < |s.workers|
    ensures Counters(WorkerStep(s, w, l))
  {
    hide CountActive, CountPermits;
    var t := WorkerStep(s, w, l);
    if t != s {
      CountTo(s.workers, w, t.workers[w]);
    }
  }

  /** The bounds, without the claim about who is still publishing. */
  predicate Bounds<A>(s: State<A>) {
    && s.active <= s.high <= PERMITS && s.peak <= s.high
    && (forall w :: 0 <= w < |s.workers| && Races(s.workers[w]) ==> s.workers[w].mine <= s.high)
    && (forall w :: 0 <= w < |s.workers| && s.workers[w].Loaded? ==> s.workers[w].seen < s.workers[w].mine)
  }

  lemma WorkerBounds<A>(s: State<A>, w: nat, l: Label<A>)
    requires Counters(s) && Bounds(s) && w < |s.workers|
    ensures Bounds(WorkerStep(s, w, l))
  {
    hide CountActive, CountPermits;
    ActiveHasPermit(s.workers);
  }

  lemma WorkerPublishes<A>(s: State<A>, w: nat, l: Label<A>)
    requires Bounds(s) && (s.peak < s.high ==> Publishing(s)) && w < |s.workers|
    ensures var t := WorkerStep(s, w, l); t.peak < t.high ==> Publishing(t)
  {
    var t := WorkerStep(s, w, l);
    if t != s && t.peak < t.high {
      if t.high != s.high {
        assert Races(t.workers[w]) && t.workers[w].mine == t.high;
      } else {
        var v :| 0 <= v < |s.workers| && Races(s.workers[v]) && s.workers[v].mine == s.high;
        assert Races(t.workers[v]) && t.workers[v].mine == t.high;
      }
    }
  }

  lemma WorkerKeeps<A>(s: State<A>, w: nat, l: Label<A>)
    requires Inv(s) && w < |s.workers|
    ensures Inv(WorkerStep(s, w, l))
  {
    hide WorkerStep, Conserved, Counters, Publishing;
    WorkerConserves(s, w, l);
    WorkerCounts(s, w, l);
    WorkerBounds(s, w, l);
    WorkerPublishes(s, w, l);
    WorkerManned(s, w, l);
  }

  lemma WorkerManned<A>(s: State<A>, w: nat, l: Label<A>)
    requires Manned(s) && w < |s.workers|
    ensures Manned(WorkerStep(s, w, l))
  {
  }

  lemma ReceiveKeeps<A>(s: State<A>)
    requires Conserved(s) && s.results != []
    ensures Conserved(s.(received := s.received + [s.results[0]], results := s.results[1..]))
  {
    hide Places;
    var t := s.(received := s.received + [s.results[0]], results := s.results[1..]);
    forall i: nat ensures Places(t, i) == Places(s, i) { ReceivePlaces(s, t, i); }
  }

  lemma ReceivePlaces<A>(s: State<A>, t: State<A>, i: nat)
    requires s.results != [] && t == s.(received := s.received + [s.results[0]], results := s.results[1..])
    ensures Places(t, i) == Places(s, i)
  {
    hide Held, Indices;
    IndicesCons(s.results, i);
    IndicesSnoc(s.received, s.results[0], i);
  }

  lemma StepKeeps<A>(s: State<A>, l: Label<A>)
    requires Inv(s)
    ensures Inv(Step(s, l))
  {
    hide WorkerStep, Conserved, Publishing, CountActive, CountPermits;
    match l {
      case Receive => if s.results != [] && |s.received| < s.n { ReceiveKeeps(s); QuietKeeps(s, Step(s, l)); }
      case Cancel => QuietKeeps(s, Step(s, l)); SameIndices(s, Step(s, l));
      case OthersTake => QuietKeeps(s, Step(s, l)); SameIndices(s, Step(s, l));
      case OthersGive => QuietKeeps(s, Step(s, l)); SameIndices(s, Step(s, l));
      case _ => if l.w < |s.workers| { WorkerKeeps(s, l.w, l); }
    }
  }

  lemma SameIndices<A>(s: State<A>, t: State<A>)
    requires Conserved(s) && t.n == s.n && t.jobs == s.jobs && t.workers == s.workers && t.results == s.results
             && t.received == s.received
    ensures Conserved(t)
  {
    hide Held, Indices;
    forall i: nat ensures Places(t, i) == Places(s, i) {}
  }

  lemma QuietKeeps<A>(s: State<A>, t: State<A>)
    requires Counters(s) && Peaks(s)
    requires t.workers == s.workers && t.permits == s.permits && t.active == s.active && t.peak == s.peak
             && t.high == s.high
    requires t.permits + t.others <= PERMITS
    ensures Counters(t) && Peaks(t)
  {
  }

  lemma {:induction false} AllIdle<A>(workers: seq<Phase<A>>)
    requires forall w :: 0 <= w < |workers| ==> workers[w].Idle?
    ensures Held(workers) == [] && CountActive(workers) == 0 && CountPermits(workers) == 0
  {
    if workers != [] { AllIdle(workers[..|workers| - 1]); }
  }

  lemma {:induction false} RunKeeps<A>(n: nat, labels: seq<Label<A>>)
    ensures Inv(Run(n, labels)) && Run(n, labels).n == n
  {
    hide Inv, Step;
    if labels == [] {
      InitKeeps<A>(n);
    } else {
      var s := Run(n, labels[..|labels| - 1]);
      RunKeeps(n, labels[..|labels| - 1]);
      StepKeeps(s, labels[|labels| - 1]);
      SameSize(s, labels[|labels| - 1]);
    }
  }

  lemma InitKeeps<A>(n: nat)
    ensures Inv(Init<A>(n))
  {
    hide Held, CountActive, CountPermits;
    var s := Init<A>(n);
    AllIdle(s.workers);
    forall i: nat ensures Places(s, i) == if i < n then 1 else 0 { RangeOnce(n, i); }
  }

  lemma RangeOnce(n: nat, i: nat)
    ensures multiset(Range(n))[i] == if i < n then 1 else 0
  {
    if i < n {
      Once(Range(n), i);
    } else {
      assert i !in Range(n);
      assert i !in multiset(Range(n));
    }
  }

  lemma SameSize<A>(s: State<A>, l: Label<A>)
    ensures Step(s, l).n == s.n
  {
  }

  /* ----- Where everything is ----- */

  function Everything<A>(s: State<A>): seq<nat> { s.jobs + Held(s.workers) + Indices(s.results) + Indices(s.received) }

  lemma {:induction false} IndicesAre<A>(items: seq<Item<A>>)
    ensures |Indices(items)| == |items| && forall k :: 0 <= k < |items| ==> Indices(items)[k] == items[k].index
  {
    if items != [] { IndicesAre(items[..|items| - 1]); }
  }

  lemma EverythingIsRange<A>(s: State<A>)
    requires Conserved(s)
    ensures multiset(Everything(s)) == multiset(Range(s.n)) && |Everything(s)| == s.n
  {
    hide Held, Indices, Range;
    var all: multiset<nat>, range: multiset<nat> := multiset(Everything(s)), multiset(Range(s.n));
    forall i: nat ensures all[i] == range[i] {
      assert all[i] == Places(s, i);
      RangeOnce(s.n, i);
    }
    assert all == range;
    assert |all| == |range|;
  }

  /** The result channel has room whenever a worker has something to send. */
  lemma SendsNeverBlock<A>(n: nat, labels: seq<Label<A>>, w: nat)
    requires var s := Run(n, labels); w < |s.workers| && s.workers[w].Sending?
    ensures |Run(n, labels).results| < n
  {
    hide Run, Held, Indices, Counters, Peaks, Manned, Conserved, Range;
    var s := Run(n, labels);
    RunKeeps(n, labels);
    EverythingIsRange(s);
    IndicesAre(s.results);
    HeldByWorker(s.workers, w);
  }

  lemma HeldByWorker<A>(workers: seq<Phase<A>>, w: nat)
    requires w < |workers| && HeldBy(workers[w]) != []
    ensures |Held(workers)| > 0
  {
    GatherMember(HeldBy, workers, HeldBy(workers[w])[0]);
    assert workers[w] in workers;
  }

  lemma ReceivedOnce<A>(s: State<A>, i: nat, j: nat)
    requires Conserved(s) && i < j < |s.received|
    ensures s.received[i].index != s.received[j].index
  {
    hide Held, Indices, Range;
    IndicesAre(s.received);
    assert multiset(Indices(s.received))[s.received[i].index] <= Places(s, s.received[i].index);
    if s.received[i].index == s.received[j].index { Twice(Indices(s.received), i, j); }
  }

  lemma ReceivedInRange<A>(s: State<A>, k: nat)
    requires Conserved(s) && k < |s.received|
    ensures s.received[k].index < s.n
  {
    hide Held, Indices, Range;
    IndicesAre(s.received);
    assert Indices(s.received)[k] in multiset(Indices(s.received));
    assert Places(s, s.received[k].index) >= 1;
  }

  /** Once all results are in, nothing is anywhere else. */
  lemma AllReceived<A>(s: State<A>)
    requires Inv(s) && |s.received| == s.n
    ensures multiset(Indices(s.received)) == multiset(Range(s.n)) && s.peak == s.high
  {
    hide Held, Indices, Range, Places, CountActive, CountPermits;
    EverythingIsRange(s);
    IndicesAre(s.received);
    IndicesAre(s.results);
    assert Everything(s) == Indices(s.received);
    forall w | 0 <= w < |s.workers| ensures !Races(s.workers[w]) {
      if Races(s.workers[w]) { HeldByWorker(s.workers, w); }
    }
  }

  /** At no time has an index been received twice; once n results are in, each index has been, exactly once, and
      the peak counter is the largest number of calls that were ever active, at most 22. */
  lemma PoolReturns<A>(n: nat, labels: seq<Label<A>>)
    ensures var s := Run(n, labels);
            && (forall i, j :: 0 <= i < j < |s.received| ==> s.received[i].index != s.received[j].index)
            && (forall k :: 0 <= k < |s.received| ==> s.received[k].index < n)
            && (|s.received| == n ==> multiset(Indices(s.received)) == multiset(Range(n)) && s.peak == s.high)
            && s.active <= s.permits <= PERMITS && s.high <= PERMITS
  {
    hide Run, Conserved, Indices, Range, CountActive, CountPermits;
    var s := Run(n, labels);
    RunKeeps(n, labels);
    ActiveHasPermit(s.workers);
    forall i, j | 0 <= i < j < |s.received| ensures s.received[i].index != s.received[j].index {
      ReceivedOnce(s, i, j);
    }
    forall k | 0 <= k < |s.received| ensures s.received[k].index < n { ReceivedInRange(s, k); }
    if |s.received| == n { AllReceived(s); }
  }

  /** `high` is the largest number ever active: reached at some moment of the run and never exceeded. */
  lemma {:induction false} HighIsHighest<A>(n: nat, labels: seq<Label<A>>)
    ensures forall i :: 0 <= i <= |labels| ==> Run(n, labels[..i]).active <= Run(n, labels).high
    ensures exists i :: 0 <= i <= |labels| && Run(n, labels[..i]).active == Run(n, labels).high
  {
    hide Inv, Step;
    if labels == [] {
      assert labels[..0] == labels;
      assert Run(n, labels[..0]).active == Run(n, labels).high;
    } else {
      var front := labels[..|labels| - 1];
      HighIsHighest(n, front);
      RunKeeps(n, front);
      RunKeeps(n, labels);
      HighRises(Run(n, front), labels[|labels| - 1]);
      assert labels[..|labels|] == labels;
      ActiveUnderHigh(Run(n, labels));
      forall i | 0 <= i <= |labels| ensures Run(n, labels[..i]).active <= Run(n, labels).high {
        if i < |labels| { assert labels[..i] == front[..i]; }
      }
      var k :| 0 <= k <= |front| && Run(n, front[..k]).active == Run(n, front).high;
      assert labels[..k] == front[..k];
      if Run(n, labels).high == Run(n, front).high {
        assert Run(n, labels[..k]).active == Run(n, labels).high;
      } else {
        assert Run(n, labels[..|labels|]).active == Run(n, labels).high;
      }
    }
  }

  lemma ActiveUnderHigh<A>(s: State<A>)
    requires Inv(s)
    ensures s.active <= s.high
  {
    hide Conserved, Counters;
  }

  lemma HighRises<A>(s: State<A>, l: Label<A>)
    ensures var t := Step(s, l); t.high == s.high || (t.high > s.high && t.high == t.active)
  {
  }

  /** Work that others do on the shared semaphore. */
  predicate ByOthers<A>(l: Label<A>) { l.OthersTake? || l.OthersGive? || l.Cancel? }

  /** The pool is never stuck: until all results are in, some step of its own is possible, or every permit is held
      by other requests. */
  lemma NeverStuck<A(0)>(n: nat, labels: seq<Label<A>>)
    requires |Run(n, labels).received| < n
    ensures var s := Run(n, labels);
            (exists l :: !ByOthers(l) && Step(s, l) != s) || s.others == PERMITS
  {
    hide Run, Held, Indices, Range, CountActive, CountPermits, Peaks;
    var s := Run(n, labels);
    RunKeeps(n, labels);
    if s.results != [] {
      var l: Label<A> := Receive;
      assert Step(s, l).received != s.received;
      assert Step(s, l) != s && !ByOthers(l);
    } else if w :| 0 <= w < |s.workers| && !s.workers[w].Quit? && !s.workers[w].Waiting? {
      SendHasRoom(n, labels, w);
      WorkerCanMove(s, w);
    } else {
      AllWaitOrQuit(s);
      if w :| 0 <= w < |s.workers| && s.workers[w].Waiting? {
        if s.others < PERMITS {
          var l: Label<A> := Acquire(w);
          assert Step(s, l).workers[w] != s.workers[w];
          assert Step(s, l) != s && !ByOthers(l);
        }
      } else {
        AllQuit(s);
      }
    }
  }

  lemma SendHasRoom<A>(n: nat, labels: seq<Label<A>>, w: nat)
    requires w < |Run(n, labels).workers|
    ensures Run(n, labels).workers[w].Sending? ==> |Run(n, labels).results| < n
  {
    if Run(n, labels).workers[w].Sending? { SendsNeverBlock(n, labels, w); }
  }

  lemma WorkerCanMove<A(0)>(s: State<A>, w: nat)
    requires w < |s.workers| && Counters(s) && !s.workers[w].Quit? && !s.workers[w].Waiting?
    requires s.workers[w].Sending? ==> |s.results| < s.n
    ensures exists l :: !ByOthers(l) && Step(s, l) != s
  {
    hide CountActive, CountPermits;
    CountsOne(s.workers, w);
    var a: A :| true;
    var l: Label<A> := match s.workers[w]
      case Idle => Take(w)
      case Took(_) => Check(w)
      case Permitted(_) => Add(w)
      case Counted(_, _) => Load(w)
      case Loaded(_, _, _) => Swap(w)
      case Calling(_) => Respond(w, Ok(a), NOTHING)
      case Called(_) => Leave(w)
      case Left(_) => Release(w)
      case _ => Send(w);
    assert Step(s, l).workers[w] != s.workers[w];
    assert Step(s, l) != s && !ByOthers(l);
  }

  lemma CountsOne<A>(workers: seq<Phase<A>>, w: nat)
    requires w < |workers|
    ensures Active(workers[w]) ==> CountActive(workers) > 0
    ensures HasPermit(workers[w]) ==> CountPermits(workers) > 0
  {
    assert workers[w] in workers;
    if Active(workers[w]) { GatherMember(ActiveOf, workers, ()); }
    if HasPermit(workers[w]) { GatherMember(PermitOf, workers, ()); }
  }

  lemma AllWaitOrQuit<A>(s: State<A>)
    requires Counters(s) && forall w :: 0 <= w < |s.workers| ==> s.workers[w].Quit? || s.workers[w].Waiting?
    ensures s.permits == 0
  {
    hide CountActive;
    NoPermits(s.workers);
  }

  lemma {:induction false} NoPermits<A>(workers: seq<Phase<A>>)
    requires forall w :: 0 <= w < |workers| ==> workers[w].Quit? || workers[w].Waiting?
    ensures CountPermits(workers) == 0
  {
    if workers != [] { NoPermits(workers[..|workers| - 1]); }
  }

  lemma AllQuit<A>(s: State<A>)
    requires Conserved(s) && Manned(s) && s.results == [] && forall w :: 0 <= w < |s.workers| ==> s.workers[w].Quit?
    ensures |s.received| == s.n
  {
    hide Range, Places;
    EverythingIsRange(s);
    IndicesAre(s.received);
    NothingHeld(s.workers);
    if s.n > 0 { assert s.workers[0].Quit?; }
  }

  lemma {:induction false} NothingHeld<A>(workers: seq<Phase<A>>)
    requires forall w :: 0 <= w < |workers| ==> workers[w].Quit?
    ensures Held(workers) == []
  {
    if workers != [] { NothingHeld(workers[..|workers| - 1]); }
  }

  /* ----- Collecting ----- */

  function Plus(a: Metrics, b: Metrics): Metrics {
    Metrics(a.calls + b.calls, a.duration + b.duration, a.usageCalls + b.usageCalls,
            a.inputTokens + b.inputTokens, a.outputTokens + b.outputTokens)
  }

  function Total<A>(items: seq<Item<A>>): Metrics {
    if items == [] then NOTHING else Plus(Total(items[..|items| - 1]), items[|items| - 1].metrics)
  }

  predicate EachOnce<A>(items: seq<Item<A>>) {
    && (forall i, j :: 0 <= i < j < |items| ==> items[i].index != items[j].index)
    && (forall k :: 0 <= k < |items| ==> items[k].index < |items|)
  }

  /** What a finished run has received is what the loop needs, so that its answers, totals and lowest error stand for
      every schedule. */
  lemma FinishedIsEachOnce<A>(n: nat, labels: seq<Label<A>>)
    requires |Run(n, labels).received| == n
    ensures EachOnce(Run(n, labels).received)
  {
    hide Run;
    PoolReturns(n, labels);
  }

  /** The loop that receives the n results, whatever order they come in: answers by index, totals, and the error
      of the lowest index that failed. */
  method Collect<A>(items: seq<Item<A>>) returns (r: Result<seq<A>, Failure>, total: Metrics)
    requires EachOnce(items)
    ensures total == Total(items)
    ensures r.Ok? <==> forall x <- items :: x.outcome.Ok?
    ensures r.Ok? ==> |r.value| == |items| && forall x <- items ::
            x.index < |items| && r.value[x.index] == x.outcome.value
    ensures r.Err? ==> exists x <- items :: x.outcome == Err(r.error) && forall y <- items ::
            y.outcome.Err? ==> x.index <= y.index
  {
    var outcomes;
    outcomes, total := Store(items);
    var answers: seq<A> := [];
    for i := 0 to |items|
      invariant |answers| == i
      invariant forall x <- items :: x.index < i ==> x.outcome == Ok(answers[x.index])
    {
      ghost var x := Filled(items, i);
      match outcomes[i] {
        case Some(Err(f)) => return Err(f), total;
        case Some(Ok(a)) => answers := answers + [a];
      }
    }
    assert forall x <- items :: x.index < |items|;
    r := Ok(answers);
  }

  method Store<A>(items: seq<Item<A>>) returns (outcomes: seq<Option<Result<A, Failure>>>, total: Metrics)
    requires EachOnce(items)
    ensures |outcomes| == |items| && total == Total(items)
    ensures forall x <- items :: x.index < |items| && outcomes[x.index] == Some(x.outcome)
  {
    outcomes, total := seq(|items|, i => None), NOTHING;
    for k := 0 to |items|
      invariant |outcomes| == |items| && total == Total(items[..k])
      invariant forall i :: 0 <= i < k ==> outcomes[items[i].index] == Some(items[i].outcome)
    {
      var item := items[k];
      assert items[..k + 1][..k] == items[..k];
      outcomes := outcomes[item.index := Some(item.outcome)];
      total := Plus(total, item.metrics);
    }
    assert items[..|items|] == items;
  }

  /** Distinct indices below their number are all of them. */
  lemma Filled<A>(items: seq<Item<A>>, i: nat) returns (x: Item<A>)
    requires EachOnce(items) && i < |items|
    ensures x in items && x.index == i && forall y <- items :: y.index == i ==> y == x
  {
    IndicesAre(items);
    var s, others := Indices(items), Range(|items|)[..i] + Range(|items|)[i + 1..];
    if i !in s {
      forall x <- s ensures x in others {
        var k :| 0 <= k < |s| && s[k] == x;
        assert items[k].index == x;
        assert x == if x < i then others[x] else others[x - 1];
      }
      DistinctFits(s, others);
    }
    var k :| 0 <= k < |s| && s[k] == i;
    x := items[k];
  }
}

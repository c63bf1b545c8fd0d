/** How long the crate can run before a drain completes. */
module PosixCrateProgress {
  import opened Processes
  import opened CrateTypes
  import opened Tally
  import opened PosixCrate
  import opened PosixCrateInvariant
  import opened PosixCrateRefinement
  import opened PosixCrateSafety

  /** What waking the consumer is worth. */
  function Wake(capacity: nat): nat { 10 * capacity + 4 }

  /** The steps a process at `pc` can still cause without a new permit. */
  function Effort(capacity: nat, pc: Pc): nat {
    match pc
    case PWaitPermit => 0
    case PWaitMem => 6
    case PWrite => 5
    case PCount => 4
    case PCheck => 3
    case PSignal => Wake(capacity) + 2
    case PRelease => 1
    case CWaitReady => 0
    case CWaitMem => 10 * capacity + 3
    case CTest(i) => (if i <= capacity then 10 * (capacity - i) else 0) + 2
    case CRead(i) => (if i <= capacity then 10 * (capacity - i) else 0) + 1
    case CPost(i) => if i <= capacity then 10 * (capacity - i) else 0
    case CReset => 1
    case CRelease => 1
  }

  function EffortOf(capacity: nat): Pc -> nat { (pc: Pc) => Effort(capacity, pc) }

  function Measure(c: Crate, checking: nat, effort: nat): nat {
    7 * c.permits + effort
    + (if c.ready > 0 then Wake(c.capacity) else 0)
    + (if c.filled < c.capacity || checking > 0 then Wake(c.capacity) else 0)
  }

  ghost function Left(s: State): nat {
    Measure(s.crate, Total(s.pcs, Checking), Total(s.pcs, EffortOf(s.crate.capacity)))
  }

  /** The longest run without a completed drain, for any number of processes. */
  function Limit(capacity: nat): nat { 17 * capacity + 7 }

  lemma ProducerEffort(c: Crate, p: Pid, pc: Pc, others: Sums, e: nat)
    requires Balanced(c, others.Plus(Share(c.capacity, pc))) && Alone(pc, others)
    requires Do(c, p, pc).Go? && pc.IsProducer()
    ensures var f := Do(c, p, pc);
            Measure(f.crate, others.checking + Checking(f.pc), e + Effort(c.capacity, f.pc))
            < Measure(c, others.checking + Checking(pc), e + Effort(c.capacity, pc))
  {
  }

  lemma ConsumerEffort(c: Crate, p: Pid, pc: Pc, others: Sums, e: nat)
    requires Balanced(c, others.Plus(Share(c.capacity, pc))) && InLoop(c.capacity, pc)
    requires Do(c, p, pc).Go? && !pc.IsProducer() && !pc.CReset?
    ensures var f := Do(c, p, pc);
            Measure(f.crate, others.checking + Checking(f.pc), e + Effort(c.capacity, f.pc))
            < Measure(c, others.checking + Checking(pc), e + Effort(c.capacity, pc))
  {
  }

  /** The measure, with one process told apart from the others. */
  lemma LeftSplit(s: State, p: Pid)
    requires p in s.pcs
    ensures var c := s.crate.capacity;
            Left(s) == Measure(s.crate, Total(s.pcs - {p}, Checking) + Checking(s.pcs[p]),
                               Total(s.pcs - {p}, EffortOf(c)) + Effort(c, s.pcs[p]))
  {
    TotalRemove(s.pcs, EffortOf(s.crate.capacity), p);
    TotalRemove(s.pcs, Checking, p);
  }

  lemma BalancedView(s: State, p: Pid) returns (others: Sums)
    requires Inv(s) && p in s.pcs
    ensures others.checking == Total(s.pcs - {p}, Checking)
    ensures Balanced(s.crate, others.Plus(Share(s.crate.capacity, s.pcs[p])))
    ensures Alone(s.pcs[p], others) && InLoop(s.crate.capacity, s.pcs[p])
  {
    others := Viewpoint(s, p);
  }

  /** Every step but the one that completes a drain uses the measure up. */
  lemma LeftDecreases(s: State, p: Pid)
    requires Inv(s) && Next(s, p).Moved? && !s.pcs[p].CReset?
    ensures Left(Next(s, p).next) < Left(s)
  {
    hide Do, Next, Effort, Checking, Measure, Left, Inv, Alone, SumsOf, Share, Sums.Plus, Balanced, InLoop;
    StepShape(s, p);
    var t := Next(s, p).next;
    var others := BalancedView(s, p);
    var e := Total(s.pcs - {p}, EffortOf(s.crate.capacity));
    LeftSplit(s, p);
    LeftSplit(t, p);
    if s.pcs[p].IsProducer() {
      ProducerEffort(s.crate, p, s.pcs[p], others, e);
    } else {
      ConsumerEffort(s.crate, p, s.pcs[p], others, e);
    }
  }

  // ---- the measure is linear in the capacity ----

  lemma {:induction false} EffortBound(capacity: nat, pcs: map<Pid, Pc>)
    ensures Total(pcs, EffortOf(capacity))
            <= 6 * Total(pcs, Uncounted) + 3 * Total(pcs, Critical) + (10 * capacity + 3) * Total(pcs, Awake)
    decreases |pcs|
  {
    if pcs == map[] {
    } else {
      var p := Pick(pcs);
      EffortBound(capacity, pcs - {p});
      TotalRemove(pcs, EffortOf(capacity), p);
      TotalRemove(pcs, Uncounted, p);
      TotalRemove(pcs, Critical, p);
      TotalRemove(pcs, Awake, p);
      Distribute(10 * capacity + 3, Total(pcs - {p}, Awake), Awake(pcs[p]));
      EffortOfOne(capacity, pcs[p]);
    }
  }

  lemma Distribute(k: nat, a: nat, b: nat)
    ensures k * (a + b) == k * a + k * b
  {
  }

  lemma EffortOfOne(capacity: nat, pc: Pc)
    ensures Effort(capacity, pc) <= 6 * Uncounted(pc) + 3 * Critical(pc) + (10 * capacity + 3) * Awake(pc)
  {
  }

  /** A drain posts no more permits than there are slots. */
  lemma PostedBound(s: State)
    requires Inv(s)
    ensures var z := SumsOf(s.crate.capacity, s.pcs);
            z.posted <= s.crate.capacity && (z.posted > 0 ==> s.crate.filled == s.crate.capacity)
  {
    if p :| p in s.pcs && s.pcs[p].Drains() {
      var others := Viewpoint(s, p);
      FilledAt(s.crate, s.pcs[p], others);
    } else {
      TotalZero(s.pcs, PostedOf(s.crate.capacity));
    }
  }

  lemma MeasureBound(c: Crate, z: Sums, effort: nat)
    requires Balanced(c, z) && z.posted <= c.capacity && (z.posted > 0 ==> c.filled == c.capacity)
    requires effort <= 6 * z.uncounted + 3 * z.critical + (10 * c.capacity + 3) * z.awake
    ensures Measure(c, z.checking, effort) <= Limit(c.capacity)
  {
    assert z.awake == 0 || z.awake == 1;
    if c.filled < c.capacity {
      assert z.awake == 0;
    }
  }

  lemma LeftBound(s: State)
    requires Inv(s)
    ensures Left(s) <= Limit(s.crate.capacity)
  {
    hide Measure, Limit, Balanced, Logged, InLoop, Effort;
    EffortBound(s.crate.capacity, s.pcs);
    PostedBound(s);
    MeasureBound(s.crate, SumsOf(s.crate.capacity, s.pcs), Total(s.pcs, EffortOf(s.crate.capacity)));
  }

  // ---- runs ----

  lemma BatchesStep(s: State, p: Pid)
    requires Next(s, p).Moved?
    ensures Next(s, p).next.crate.batches == s.crate.batches + if s.pcs[p].CReset? then 1 else 0
  {
  }

  lemma {:induction false} BatchesMonotone(s: State, schedule: seq<Pid>)
    requires Run(s, schedule).Moved?
    ensures s.crate.batches <= Run(s, schedule).next.crate.batches
    decreases |schedule|
  {
    if schedule == [] {
    } else {
      BatchesStep(s, schedule[0]);
      BatchesMonotone(Next(s, schedule[0]).next, schedule[1..]);
    }
  }

  lemma {:induction false} UndrainedRun(s: State, schedule: seq<Pid>)
    requires Inv(s) && Run(s, schedule).Moved?
    requires Run(s, schedule).next.crate.batches == s.crate.batches
    ensures |schedule| + Left(Run(s, schedule).next) <= Left(s)
    decreases |schedule|
  {
    hide Next, Do, Inv, Left;
    if schedule == [] {
    } else {
      var p, t := schedule[0], Next(s, schedule[0]).next;
      StepShape(s, p);
      BatchesStep(s, p);
      BatchesMonotone(t, schedule[1..]);
      LeftDecreases(s, p);
      InvStep(s, p);
      UndrainedRun(t, schedule[1..]);
    }
  }

  /** However many processes there are and however they are scheduled, a run
      longer than the limit completes a drain. */
  lemma DrainCompletes(s: State, schedule: seq<Pid>)
    requires Inv(s) && Run(s, schedule).Moved?
    requires |schedule| > Limit(s.crate.capacity)
    ensures Run(s, schedule).next.crate.batches > s.crate.batches
  {
    BatchesMonotone(s, schedule);
    if Run(s, schedule).next.crate.batches == s.crate.batches {
      UndrainedRun(s, schedule);
      LeftBound(s);
    }
  }

  lemma {:induction false} RunPrefix(s: State, schedule: seq<Pid>, n: nat)
    requires Run(s, schedule).Moved? && n <= |schedule|
    ensures Run(s, schedule[..n]).Moved?
    decreases n
  {
    if n == 0 {
    } else {
      RunPrefix(Next(s, schedule[0]).next, schedule[1..], n - 1);
      assert schedule[..n][1..] == schedule[1..][..n - 1];
    }
  }

  /** So deliveries keep pace with the number of steps. */
  lemma {:induction false} DeliveriesKeepPace(s: State, schedule: seq<Pid>, k: nat)
    requires Initial(s) && s.crate.capacity >= 1 && Run(s, schedule).Moved?
    requires |schedule| >= k * (Limit(s.crate.capacity) + 1)
    ensures var t := Run(s, schedule).next;
            t.crate.batches >= k && |t.crate.delivered| >= s.crate.capacity * k
  {
    InvInitial(s);
    DrainsKeepPace(s, schedule, k);
    InvRun(s, schedule);
    RolesKept(s, schedule);
    DeliveredByBatches(Run(s, schedule).next, k);
  }

  lemma DeliveredByBatches(t: State, k: nat)
    requires Inv(t) && t.crate.batches >= k
    ensures |t.crate.delivered| >= t.crate.capacity * k
  {
    Distribute(t.crate.capacity, k, t.crate.batches - k);
  }

  lemma {:induction false} DrainsKeepPace(s: State, schedule: seq<Pid>, k: nat)
    requires Inv(s) && Run(s, schedule).Moved?
    requires |schedule| >= k * (Limit(s.crate.capacity) + 1)
    ensures Run(s, schedule).next.crate.batches >= s.crate.batches + k
    decreases k
  {
    hide Inv, Next, Run;
    if k == 0 {
      BatchesMonotone(s, schedule);
    } else {
      var n := Limit(s.crate.capacity) + 1;
      Distribute(n, k - 1, 1);
      var first, rest := schedule[..n], schedule[n..];
      assert schedule == first + rest;
      RunPrefix(s, schedule, n);
      RunConcat(s, first, rest);
      DrainCompletes(s, first);
      InvRun(s, first);
      RolesKept(s, first);
      DrainsKeepPace(Run(s, first).next, rest, k - 1);
    }
  }

  // ---- when the crate runs for ever ----

  predicate CanMove(s: State, p: Pid) { Next(s, p).Moved? }

  /** A process about to write an item for which there is no name holds the mutex for good. */
  ghost predicate Jammed(s: State, p: Pid) {
    Inv(s) && p in s.pcs && s.pcs[p] == PWrite && s.crate.filled >= |ITEM_NAMES|
  }

  lemma JamStays(s: State, p: Pid, q: Pid)
    requires Jammed(s, p) && CanMove(s, q)
    ensures Jammed(Next(s, q).next, p) && !s.pcs[q].CReset?
  {
    hide Inv;
    InvStep(s, q);
    assert q != p;
    if s.pcs[q].Holds() { OneInside(s, p, q); }
  }

  /** Behind it the others can take only finitely many more steps. */
  lemma {:induction false} JamSpreads(s: State, p: Pid) returns (schedule: seq<Pid>)
    requires Jammed(s, p)
    ensures Run(s, schedule).Moved? && forall q :: !CanMove(Run(s, schedule).next, q)
    decreases Left(s)
  {
    hide Jammed, Next, Left;
    schedule := [];
    if q :| CanMove(s, q) {
      JamStays(s, p, q);
      assert Inv(s) by { JamInv(s, p); }
      hide Inv;
      LeftDecreases(s, q);
      var rest := JamSpreads(Next(s, q).next, p);
      Advance(s, q, rest);
      schedule := [q] + rest;
    }
  }

  lemma JamInv(s: State, p: Pid)
    requires Jammed(s, p)
    ensures Inv(s)
  {
  }

  /** A producer on its own jams a crate for more items than there are names. */
  lemma LoneProducerJams(s: State, p: Pid)
    requires Filling(s, p, |ITEM_NAMES|) && Inv(s)
    ensures Run(s, [p, p]).Moved? && Jammed(Run(s, [p, p]).next, p)
  {
    var a := Next(s, p).next;
    var b := Next(a, p).next;
    InvStep(s, p);
    InvStep(a, p);
    hide Inv;
    assert [p, p][1..] == [p] && [p][1..] == [];
    assert Run(a, [p]) == Moved(b);
  }

  /** With a producer and a consumer every schedule can go on for ever exactly when
      the crate is made for at least one item and at most as many as there are names. */
  lemma RunsOnExactlyWhen(s: State, producer: Pid, consumer: Pid)
    requires Initial(s)
    requires producer in s.pcs && s.pcs[producer] == PWaitPermit
    requires consumer in s.pcs && s.pcs[consumer] == CWaitReady
    ensures (forall schedule :: Run(s, schedule).Moved? ==> exists p :: CanMove(Run(s, schedule).next, p))
            <==> 1 <= s.crate.capacity <= |ITEM_NAMES|
  {
    hide Inv, Jammed, Filling;
    if s.crate.capacity == 0 {
      EmptyCrateStuck(s);
      assert Run(s, []) == Moved(s);
      forall p ensures !CanMove(s, p) { }
    } else if s.crate.capacity > |ITEM_NAMES| {
      InvInitial(s);
      var schedule := ReachJam(s, producer);
      assert Run(s, schedule).Moved?;
    } else {
      forall schedule | Run(s, schedule).Moved? ensures exists p :: CanMove(Run(s, schedule).next, p) {
        NoDeadlock(s, schedule, producer, consumer);
        var p :| Next(Run(s, schedule).next, p).Moved?;
        assert CanMove(Run(s, schedule).next, p);
      }
    }
  }

  lemma ReachJam(s: State, p: Pid) returns (schedule: seq<Pid>)
    requires Initial(s) && Inv(s) && s.crate.capacity > |ITEM_NAMES| && p in s.pcs && s.pcs[p] == PWaitPermit
    ensures Run(s, schedule).Moved? && forall q :: !CanMove(Run(s, schedule).next, q)
  {
    assert Filling(s, p, 0);
    hide Inv, Jammed, Filling, Next, Initial, Run;
    var fill := FillAlone(s, p, |ITEM_NAMES|);
    var t := Run(s, fill).next;
    InvRun(s, fill);
    LoneProducerJams(t, p);
    var u := Run(t, [p, p]).next;
    var rest := JamSpreads(u, p);
    RunConcat(t, [p, p], rest);
    RunConcat(s, fill, [p, p] + rest);
    schedule := fill + ([p, p] + rest);
  }
}

/** The simple buffer that every interleaving of producers and consumers refines:
    items are put in one by one, only a full batch is taken over, and it is taken
    out completely, in order, before the next item is put in. */
module BatchBuffer {
  import opened CrateTypes

  datatype Batch = Batch(queue: seq<Cell>, draining: bool, delivered: seq<Cell>)

  ghost predicate Put(capacity: nat, b: Batch, b': Batch) {
    && !b.draining && |b.queue| < capacity
    && exists cell :: b' == b.(queue := b.queue + [cell])
  }

  ghost predicate Open(capacity: nat, b: Batch, b': Batch) {
    !b.draining && |b.queue| == capacity && b' == b.(draining := true)
  }

  ghost predicate Take(b: Batch, b': Batch) {
    && b.draining && b.queue != []
    && b' == b.(queue := b.queue[1..], delivered := b.delivered + [b.queue[0]])
  }

  ghost predicate Close(b: Batch, b': Batch) {
    b.draining && b.queue == [] && b' == b.(draining := false)
  }

  ghost predicate Step(capacity: nat, b: Batch, b': Batch) {
    Put(capacity, b, b') || Open(capacity, b, b') || Take(b, b') || Close(b, b')
  }
}

/** Safety of the POSIX crate over all runs. */
module PosixCrateRefinement {
  import opened Processes
  import opened CrateTypes
  import opened Tally
  import opened PosixCrate
  import opened PosixCrateInvariant
  import opened BatchBuffer

  /** The abstract buffer: the slots written and not yet read. */
  ghost function Contents(c: Crate, written: nat, read: nat, draining: nat): Batch
    requires read <= written <= |c.data|
  {
    Batch(c.data[read..written], draining > 0, c.delivered)
  }

  ghost function Abs(s: State): Batch
    requires Inv(s)
  {
    var z := SumsOf(s.crate.capacity, s.pcs);
    ReadIsWritten(s);
    Contents(s.crate, s.crate.filled + z.unrecorded, z.read, z.draining)
  }

  /** A drain reads only slots of the full batch. */
  lemma ReadIsWritten(s: State)
    requires Inv(s)
    ensures var z := SumsOf(s.crate.capacity, s.pcs); z.read <= s.crate.filled + z.unrecorded
  {
    if p :| p in s.pcs && s.pcs[p].Drains() {
      var others := Viewpoint(s, p);
      FilledAt(s.crate, s.pcs[p], others);
    } else {
      TotalZero(s.pcs, ReadOf(s.crate.capacity));
    }
  }

  lemma PutStep(c: Crate, p: Pid)
    requires |c.data| == c.capacity && c.filled < c.capacity && Do(c, p, PWrite).Go?
    ensures Step(c.capacity, Contents(c, c.filled, 0, 0), Contents(Do(c, p, PWrite).crate, c.filled + 1, 0, 0))
  {
    var d := Do(c, p, PWrite).crate;
    assert d.data[..c.filled + 1] == c.data[..c.filled] + [d.data[c.filled]];
  }

  lemma TakeStep(c: Crate, p: Pid, i: nat)
    requires i < c.filled <= |c.data|
    ensures Do(c, p, CRead(i)).Go?
    ensures Step(c.capacity, Contents(c, c.filled, i, 1), Contents(Do(c, p, CRead(i)).crate, c.filled, i + 1, 1))
  {
    assert c.data[i..c.filled][1..] == c.data[i + 1..c.filled];
  }

  lemma DrainStep(c: Crate, p: Pid)
    requires |c.data| == c.capacity == c.filled && Do(c, p, CWaitMem).Go?
    ensures Step(c.capacity, Contents(c, c.filled, 0, 0), Contents(Do(c, p, CWaitMem).crate, c.filled, 0, 1))
  {
    hide Put, Take;
  }

  lemma ResetStep(c: Crate, p: Pid)
    requires |c.data| == c.capacity == c.filled
    ensures Step(c.capacity, Contents(c, c.filled, c.capacity, 1), Contents(Do(c, p, CReset).crate, 0, 0, 0))
  {
    hide Put, Take;
  }

  /** The step of one process; `u`, `r` and `d` are what the others contribute. */
  lemma ContentsStep(c: Crate, p: Pid, pc: Pc, u: nat, r: nat, d: nat)
    requires |c.data| == c.capacity && InLoop(c.capacity, pc) && Do(c, p, pc).Go?
    requires pc.Holds() || pc.CWaitMem? ==> u == r == d == 0
    requires pc.PWrite? ==> c.filled < c.capacity
    requires pc.Drains() || pc.CWaitMem? ==> c.filled == c.capacity
    requires r + Read(c.capacity, pc) <= c.filled + u + Unrecorded(pc) <= c.capacity
    ensures var e := Do(c, p, pc);
            && r + Read(c.capacity, e.pc) <= e.crate.filled + u + Unrecorded(e.pc) <= |e.crate.data|
            && var b := Contents(c, c.filled + u + Unrecorded(pc), r + Read(c.capacity, pc), d + Draining(pc));
               var b' := Contents(e.crate, e.crate.filled + u + Unrecorded(e.pc), r + Read(c.capacity, e.pc), d + Draining(e.pc));
               b' == b || Step(c.capacity, b, b')
  {
    hide Contents, Step;
    if Quiet(pc) && !pc.CWaitMem? {
      hide Do, Unrecorded, Read, Draining;
      QuietKeeps(c, p, pc);
      QuietDrains(c, p, pc);
      SameContents(c, Do(c, p, pc).crate);
    } else {
      match pc
      case PWrite => PutStep(c, p);
      case CRead(i) => TakeStep(c, p, i);
      case CWaitMem => DrainStep(c, p);
      case CReset => ResetStep(c, p);
    }
  }

  lemma SameContents(c: Crate, d: Crate)
    requires d.data == c.data && d.delivered == c.delivered
    ensures forall w: nat, r: nat, k: nat :: r <= w <= |c.data| ==> Contents(c, w, r, k) == Contents(d, w, r, k)
  {
  }

  lemma QuietDrains(c: Crate, p: Pid, pc: Pc)
    requires Quiet(pc) && !pc.CWaitMem? && Do(c, p, pc).Go?
    ensures Draining(Do(c, p, pc).pc) == Draining(pc)
  {
  }

  /** What process `p` of a reachable state finds, in terms of what the others contribute. */
  lemma Found(s: State, p: Pid) returns (others: Sums)
    requires Inv(s) && p in s.pcs
    ensures others == SumsOf(s.crate.capacity, s.pcs - {p})
    ensures SumsOf(s.crate.capacity, s.pcs) == others.Plus(Share(s.crate.capacity, s.pcs[p]))
    ensures |s.crate.data| == s.crate.capacity && InLoop(s.crate.capacity, s.pcs[p])
    ensures s.pcs[p].Holds() || (s.pcs[p].CWaitMem? && s.crate.mem > 0)
            ==> others.unrecorded == others.read == others.draining == 0
    ensures s.pcs[p].PWrite? ==> s.crate.filled < s.crate.capacity
    ensures s.pcs[p].Drains() || s.pcs[p].CWaitMem? ==> s.crate.filled == s.crate.capacity
    ensures others.read + Read(s.crate.capacity, s.pcs[p])
            <= s.crate.filled + others.unrecorded + Unrecorded(s.pcs[p]) <= s.crate.capacity
  {
    others := Viewpoint(s, p);
    FilledAt(s.crate, s.pcs[p], others);
    ReadIsWritten(s);
    if s.crate.mem > 0 {
      OutsideCritical(s.crate.capacity, s.pcs);
    }
  }

  lemma AbsOfShares(s: State, p: Pid, others: Sums)
    requires Inv(s) && p in s.pcs
    requires SumsOf(s.crate.capacity, s.pcs) == others.Plus(Share(s.crate.capacity, s.pcs[p]))
    ensures var written := s.crate.filled + others.unrecorded + Unrecorded(s.pcs[p]);
            var read := others.read + Read(s.crate.capacity, s.pcs[p]);
            && read <= written <= |s.crate.data|
            && Abs(s) == Contents(s.crate, written, read, others.draining + Draining(s.pcs[p]))
  {
    ReadIsWritten(s);
  }

  lemma StepShape(s: State, p: Pid)
    requires Next(s, p).Moved?
    ensures p in s.pcs && Do(s.crate, p, s.pcs[p]).Go?
    ensures Next(s, p).next == State(Do(s.crate, p, s.pcs[p]).crate, s.pcs[p := Do(s.crate, p, s.pcs[p]).pc])
    ensures Next(s, p).next.pcs - {p} == s.pcs - {p}
    ensures Next(s, p).next.crate.capacity == s.crate.capacity
    ensures s.pcs[p].CWaitMem? ==> s.crate.mem > 0
  {
    assert s.pcs[p := Do(s.crate, p, s.pcs[p]).pc] - {p} == s.pcs - {p};
  }

  /** Every step of every process is a step of the simple buffer, or invisible. */
  lemma Refines(s: State, p: Pid)
    requires Inv(s) && Next(s, p).Moved?
    ensures var t := Next(s, p).next;
            && Inv(t)
            && (Abs(t) == Abs(s) || Step(s.crate.capacity, Abs(s), Abs(t)))
  {
    hide Do, Next, Step, Contents, Draining, Unrecorded, Read, SumsOf, Balanced, Logged, InLoop, Abs, Inv;
    InvStep(s, p);
    StepShape(s, p);
    var t := Next(s, p).next;
    var others := Found(s, p);
    SumsSplit(s.crate.capacity, t.pcs, p);
    AbsOfShares(s, p, others);
    AbsOfShares(t, p, others);
    ContentsStep(s.crate, p, s.pcs[p], others.unrecorded, others.read, others.draining);
  }

  // ---- whole runs ----

  /** A sequence of buffers in which each follows from the one before or equals it. */
  ghost predicate BatchRun(capacity: nat, trace: seq<Batch>) {
    forall i :: 0 <= i < |trace| - 1 ==> trace[i + 1] == trace[i] || Step(capacity, trace[i], trace[i + 1])
  }

  /** Every run, of any processes in any order, is a run of the simple buffer. */
  lemma {:induction false} RunRefines(s: State, schedule: seq<Pid>) returns (trace: seq<Batch>)
    requires Inv(s) && Run(s, schedule).Moved?
    ensures Inv(Run(s, schedule).next)
    ensures |trace| == |schedule| + 1 && BatchRun(s.crate.capacity, trace)
    ensures trace[0] == Abs(s) && trace[|schedule|] == Abs(Run(s, schedule).next)
    decreases |schedule|
  {
    hide Inv, Next, Abs, Step;
    if schedule == [] {
      trace := [Abs(s)];
    } else {
      Refines(s, schedule[0]);
      StepShape(s, schedule[0]);
      var rest := RunRefines(Next(s, schedule[0]).next, schedule[1..]);
      trace := [Abs(s)] + rest;
    }
  }

  lemma UndrainedIsRest(c: Crate, written: nat, read: nat)
    requires Logged(c, written, read) && read <= written
    ensures c.delivered + c.data[read..written] == c.produced
  {
    var base := c.capacity * c.batches;
    var d, p := c.delivered, c.produced;
    assert d == p[..base + read];
    forall j | 0 <= j < written - read ensures c.data[read..written][j] == p[base + read..][j] {
      assert c.data[read + j] == p[base + (read + j)];
    }
    hide Logged, Carries;
    assert c.data[read..written] == p[base + read..];
    assert p == p[..base + read] + p[base + read..];
  }

  /** What has been delivered, followed by the slots not yet drained, is what was
      produced, in order; the k-th item produced is number k modulo the capacity and
      its slot starts with its text. */
  lemma DeliveredInOrder(s: State, schedule: seq<Pid>)
    requires Initial(s) && s.crate.capacity >= 1 && Run(s, schedule).Moved?
    ensures var t := Run(s, schedule).next;
            && Inv(t) && t.crate.filled <= t.crate.capacity
            && t.crate.delivered + Abs(t).queue == t.crate.produced
            && |t.crate.tags| == |t.crate.produced|
            && forall k :: 0 <= k < |t.crate.tags| ==>
                 Carries(t.crate.produced[k], t.crate.tags[k]) && t.crate.tags[k].index == k % t.crate.capacity
  {
    hide Inv, Run, Next, Initial, Abs, Carries;
    InvInitial(s);
    InvRun(s, schedule);
    OrderedAt(Run(s, schedule).next);
  }

  /** The same for one state with the invariant. */
  lemma OrderedAt(t: State)
    requires Inv(t)
    ensures t.crate.filled <= t.crate.capacity
    ensures t.crate.delivered + Abs(t).queue == t.crate.produced && |t.crate.tags| == |t.crate.produced|
    ensures t.crate.capacity >= 1 && forall k :: 0 <= k < |t.crate.tags| ==>
              Carries(t.crate.produced[k], t.crate.tags[k]) && t.crate.tags[k].index == k % t.crate.capacity
  {
    var z := SumsOf(t.crate.capacity, t.pcs);
    hide SumsOf, Carries;
    ReadIsWritten(t);
    UndrainedIsRest(t.crate, t.crate.filled + z.unrecorded, z.read);
  }
}

/** Which capacities are safe, and that no reachable crate is stuck. */
module PosixCrateSafety {
  import opened Processes
  import opened CrateTypes
  import opened Tally
  import opened PosixCrate
  import opened PosixCrateInvariant
  import opened PosixCrateRefinement

  // ---- table bounds ----

  lemma NoFaultStep(s: State, p: Pid)
    requires Inv(s) && s.crate.capacity <= |ITEM_NAMES|
    ensures !Next(s, p).Fault?
  {
    hide Do, SumsOf, Share, Balanced, Logged, Inv, InLoop, Read, Unrecorded;
    if p in s.pcs {
      var others := Found(s, p);
      InBounds(s.crate, p, s.pcs[p]);
    }
  }

  lemma InBounds(c: Crate, p: Pid, pc: Pc)
    requires |c.data| == c.capacity <= |ITEM_NAMES| && InLoop(c.capacity, pc)
    requires pc.PWrite? ==> c.filled < c.capacity
    ensures !Do(c, p, pc).Crash?
  {
  }

  lemma {:induction false} NoFaultRun(s: State, schedule: seq<Pid>)
    requires Inv(s) && s.crate.capacity <= |ITEM_NAMES|
    ensures !Run(s, schedule).Fault?
    decreases |schedule|
  {
    if schedule == [] {
    } else {
      NoFaultStep(s, schedule[0]);
      if Next(s, schedule[0]).Moved? {
        InvStep(s, schedule[0]);
        NextCapacity(s, schedule[0]);
        NoFaultRun(Next(s, schedule[0]).next, schedule[1..]);
      }
    }
  }

  lemma NextCapacity(s: State, p: Pid)
    requires Next(s, p).Moved?
    ensures Next(s, p).next.crate.capacity == s.crate.capacity
  {
  }

  /** Producer `p` is at the top of its loop and has filled `k` slots on its own. */
  ghost predicate Filling(s: State, p: Pid, k: nat) {
    && k < s.crate.capacity == |s.crate.data|
    && p in s.pcs && s.pcs[p] == PWaitPermit
    && s.crate.filled == k && s.crate.permits == s.crate.capacity - k && s.crate.mem == 1
  }

  /** One pass of a producer's loop that does not complete the batch. */
  function Pass(p: Pid): seq<Pid> { [p, p, p, p, p, p] }

  lemma Advance(s: State, p: Pid, rest: seq<Pid>)
    requires Next(s, p).Moved?
    ensures Run(s, [p] + rest) == Run(Next(s, p).next, rest)
  {
    assert ([p] + rest)[1..] == rest;
  }

  lemma OnePass(s: State, p: Pid, k: nat)
    requires Filling(s, p, k) && k < |ITEM_NAMES| && k + 1 < s.crate.capacity
    ensures Run(s, Pass(p)).Moved? && Filling(Run(s, Pass(p)).next, p, k + 1)
    ensures Run(s, Pass(p)).next.crate.capacity == s.crate.capacity
  {
    hide Run, TagText, Deposit;
    var a := Next(s, p).next;
    var b := Next(a, p).next;
    assert b.crate.filled < |ITEM_NAMES| && b.crate.filled < |b.crate.data| && b.pcs[p] == PWrite;
    var c := Next(b, p).next;
    var d := Next(c, p).next;
    var e := Next(d, p).next;
    var f := Next(e, p).next;
    PassRuns(s, a, b, c, d, e, f, p);
  }

  lemma PassRuns(s: State, a: State, b: State, c: State, d: State, e: State, f: State, p: Pid)
    requires Next(s, p) == Moved(a) && Next(a, p) == Moved(b) && Next(b, p) == Moved(c)
    requires Next(c, p) == Moved(d) && Next(d, p) == Moved(e) && Next(e, p) == Moved(f)
    ensures Run(s, Pass(p)) == Moved(f)
  {
    hide Next;
    assert Run(f, []) == Moved(f);
    assert [p] + [] == [p];
    Advance(e, p, []);
    Advance(d, p, [p]);
    Advance(c, p, [p, p]);
    Advance(b, p, [p, p, p]);
    Advance(a, p, [p, p, p, p]);
    Advance(s, p, [p, p, p, p, p]);
    assert [p] + [p, p, p, p, p] == Pass(p);
    assert [p] + [p, p, p, p] == [p, p, p, p, p];
    assert [p] + [p, p, p] == [p, p, p, p];
    assert [p] + [p, p] == [p, p, p];
    assert [p] + [p] == [p, p];
  }

  lemma {:induction false} FillAlone(s: State, p: Pid, k: nat) returns (schedule: seq<Pid>)
    requires Filling(s, p, 0) && k <= |ITEM_NAMES| && k < s.crate.capacity
    ensures Run(s, schedule).Moved? && Filling(Run(s, schedule).next, p, k)
    ensures Run(s, schedule).next.crate.capacity == s.crate.capacity
    ensures forall x :: x in schedule ==> x == p
    decreases k
  {
    if k == 0 {
      schedule := [];
    } else {
      var before := FillAlone(s, p, k - 1);
      OnePass(Run(s, before).next, p, k - 1);
      RunConcat(s, before, Pass(p));
      schedule := before + Pass(p);
    }
  }

  /** A lone producer reads past the table of names once nine slots are filled. */
  lemma OverrunsTable(s: State, p: Pid)
    requires Filling(s, p, |ITEM_NAMES|)
    ensures Run(s, [p, p, p]) == Fault
  {
    hide Deposit, TagText;
    var a := Next(s, p).next;
    var b := Next(a, p).next;
    assert Next(b, p) == Fault;
    assert [p, p, p][1..] == [p, p] && [p, p][1..] == [p] && [p][0] == p;
    assert Run(b, [p]) == Fault;
    assert Run(a, [p, p]) == Run(b, [p]);
  }

  /** A crate for no items lets nobody in. */
  lemma EmptyCrateStuck(s: State)
    requires Initial(s) && s.crate.capacity == 0
    ensures forall q :: Next(s, q).Blocked?
    ensures forall schedule :: !Run(s, schedule).Fault?
  {
  }

  /** Some schedule indexes past the end of a table exactly when the crate is
      created for more items than there are names. */
  lemma FaultsExactlyAboveNine(s: State, p: Pid)
    requires Initial(s) && p in s.pcs && s.pcs[p] == PWaitPermit
    ensures (exists schedule :: Run(s, schedule).Fault?) <==> s.crate.capacity > |ITEM_NAMES|
  {
    if s.crate.capacity == 0 {
      EmptyCrateStuck(s);
    } else if s.crate.capacity > |ITEM_NAMES| {
      var schedule := FillAlone(s, p, |ITEM_NAMES|);
      OverrunsTable(Run(s, schedule).next, p);
      RunConcat(s, schedule, [p, p, p]);
      assert Run(s, schedule + [p, p, p]).Fault?;
    } else {
      InvInitial(s);
      forall schedule ensures !Run(s, schedule).Fault? {
        NoFaultRun(s, schedule);
      }
    }
  }

  // ---- mutual exclusion ----

  /** Never two processes between the wait and the post on the memory semaphore. */
  lemma OneInside(s: State, p: Pid, q: Pid)
    requires Inv(s) && p in s.pcs && q in s.pcs && s.pcs[p].Holds() && s.pcs[q].Holds()
    ensures p == q
  {
    if p != q {
      TotalRemove(s.pcs, Critical, p);
      TotalRemove(s.pcs - {p}, Critical, q);
    }
  }

  // ---- freedom from deadlock ----

  /** With the mutex free and every producer and consumer waiting outside, one of them can go. */
  lemma WaitersMove(s: State, producer: Pid, consumer: Pid)
    requires Inv(s)
    requires forall p :: p in s.pcs ==> s.pcs[p] == PWaitPermit || s.pcs[p] == CWaitReady
    requires producer in s.pcs && s.pcs[producer] == PWaitPermit
    requires consumer in s.pcs && s.pcs[consumer] == CWaitReady
    ensures Next(s, producer).Moved? || Next(s, consumer).Moved?
  {
    TotalZero(s.pcs, Critical);
    TotalZero(s.pcs, Awake);
    TotalZero(s.pcs, Uncounted);
    OutsideCritical(s.crate.capacity, s.pcs);
  }

  lemma InsiderMoves(s: State, p: Pid)
    requires Inv(s) && s.crate.capacity <= |ITEM_NAMES|
    requires p in s.pcs && s.pcs[p] != PWaitPermit && s.pcs[p] != CWaitReady
    requires s.pcs[p].Holds() || s.crate.mem > 0
    ensures Next(s, p).Moved?
  {
    NoFaultStep(s, p);
  }

  /** Some process can always step. */
  lemma NeverStuck(s: State)
    requires Inv(s) && s.crate.capacity <= |ITEM_NAMES|
    requires exists p :: p in s.pcs && s.pcs[p].IsProducer()
    requires exists p :: p in s.pcs && !s.pcs[p].IsProducer()
    ensures exists p :: Next(s, p).Moved?
  {
    if p :| p in s.pcs && s.pcs[p].Holds() {
      InsiderMoves(s, p);
    } else {
      assert s.crate.mem == 1 by { TotalZero(s.pcs, Critical); }
      if p :| p in s.pcs && s.pcs[p] != PWaitPermit && s.pcs[p] != CWaitReady {
        InsiderMoves(s, p);
      } else {
        var producer :| producer in s.pcs && s.pcs[producer].IsProducer();
        var consumer :| consumer in s.pcs && !s.pcs[consumer].IsProducer();
        WaitersMove(s, producer, consumer);
      }
    }
  }

  /** Producers stay producers and consumers stay consumers. */
  lemma {:induction false} RolesKept(s: State, schedule: seq<Pid>)
    requires Run(s, schedule).Moved?
    ensures var t := Run(s, schedule).next;
            && t.crate.capacity == s.crate.capacity && t.pcs.Keys == s.pcs.Keys
            && forall p :: p in s.pcs ==> t.pcs[p].IsProducer() == s.pcs[p].IsProducer()
    decreases |schedule|
  {
    if schedule == [] {
    } else {
      var t := Next(s, schedule[0]).next;
      RoleKept(s, schedule[0]);
      hide Next;
      RolesKept(t, schedule[1..]);
    }
  }

  lemma RoleKept(s: State, p: Pid)
    requires Next(s, p).Moved?
    ensures var t := Next(s, p).next;
            && t.crate.capacity == s.crate.capacity && t.pcs.Keys == s.pcs.Keys
            && forall q :: q in s.pcs ==> t.pcs[q].IsProducer() == s.pcs[q].IsProducer()
  {
  }

  /** No schedule leads a crate with a producer and a consumer into a deadlock. */
  lemma NoDeadlock(s: State, schedule: seq<Pid>, producer: Pid, consumer: Pid)
    requires Initial(s) && 1 <= s.crate.capacity <= |ITEM_NAMES|
    requires producer in s.pcs && s.pcs[producer].IsProducer()
    requires consumer in s.pcs && !s.pcs[consumer].IsProducer()
    requires Run(s, schedule).Moved?
    ensures exists p :: Next(Run(s, schedule).next, p).Moved?
  {
    InvInitial(s);
    InvRun(s, schedule);
    RolesKept(s, schedule);
    NeverStuck(Run(s, schedule).next);
  }
}

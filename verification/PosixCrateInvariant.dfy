/** The invariant of every reachable crate, as a balance between the semaphores
    and what the processes, taken together, hold. */
module PosixCrateInvariant {
  import opened Processes
  import opened CrateTypes
  import opened Tally
  import opened Modular
  import opened PosixCrate

  // ---- what one process contributes ----

  function Critical(pc: Pc): nat { if pc.Holds() then 1 else 0 }

  /** Has the full batch in its hands: about to wake a consumer, or an awakened consumer. */
  function Awake(pc: Pc): nat { if pc.PSignal? || pc.CWaitMem? || pc.Drains() then 1 else 0 }

  function Checking(pc: Pc): nat { if pc.PCheck? then 1 else 0 }

  function Draining(pc: Pc): nat { if pc.Drains() then 1 else 0 }

  /** A permit taken but not yet counted in the crate's state. */
  function Uncounted(pc: Pc): nat { if pc.PWaitMem? || pc.PWrite? || pc.PCount? then 1 else 0 }

  /** An item written but not yet counted in the crate's state. */
  function Unrecorded(pc: Pc): nat { if pc.PCount? then 1 else 0 }

  /** Permits given back by the drain in progress. */
  function Posted(capacity: nat, pc: Pc): nat {
    if pc.CTest? || pc.CRead? || pc.CPost? then pc.i else if pc.CReset? then capacity else 0
  }

  /** Slots read by the drain in progress. */
  function Read(capacity: nat, pc: Pc): nat {
    Posted(capacity, pc) + if pc.CPost? then 1 else 0
  }

  function PostedOf(capacity: nat): Pc -> nat { (pc: Pc) => Posted(capacity, pc) }

  function ReadOf(capacity: nat): Pc -> nat { (pc: Pc) => Read(capacity, pc) }

  datatype Sums = Sums(critical: nat, awake: nat, checking: nat, draining: nat,
                       uncounted: nat, unrecorded: nat, posted: nat, read: nat)
  {
    function Plus(z: Sums): Sums {
      Sums(critical + z.critical, awake + z.awake, checking + z.checking, draining + z.draining,
           uncounted + z.uncounted, unrecorded + z.unrecorded, posted + z.posted, read + z.read)
    }
  }

  function Share(capacity: nat, pc: Pc): Sums {
    Sums(Critical(pc), Awake(pc), Checking(pc), Draining(pc),
         Uncounted(pc), Unrecorded(pc), Posted(capacity, pc), Read(capacity, pc))
  }

  ghost function SumsOf(capacity: nat, pcs: map<Pid, Pc>): Sums {
    Sums(Total(pcs, Critical), Total(pcs, Awake), Total(pcs, Checking), Total(pcs, Draining),
         Total(pcs, Uncounted), Total(pcs, Unrecorded), Total(pcs, PostedOf(capacity)), Total(pcs, ReadOf(capacity)))
  }

  // ---- the invariant ----

  /** The memory semaphore and the process in the critical section make one; a
      full crate has exactly one pending or awakened consumer, a crate being
      filled has none; free permits, permits in producers' hands and counted
      items make the capacity, up to the permits a drain has already posted. */
  predicate Balanced(c: Crate, z: Sums) {
    && c.capacity >= 1 && c.filled <= c.capacity
    && c.mem + z.critical == 1
    && c.ready + z.awake + (if c.filled == c.capacity then z.checking else 0)
       == (if c.filled == c.capacity then 1 else 0)
    && c.permits + z.uncounted + c.filled == c.capacity + z.posted
  }

  /** The logs agree with each other and with the slots, when `written` slots hold
      an item of the present batch and `read` of them have been delivered. */
  ghost predicate Logged(c: Crate, written: nat, read: nat) {
    var base := c.capacity * c.batches;
    && |c.data| == c.capacity >= written
    && |c.tags| == |c.produced| == base + written
    && |c.delivered| == base + read
    && c.delivered <= c.produced
    && (forall j :: 0 <= j < written ==> c.data[j] == c.produced[base + j])
    && (forall k :: 0 <= k < |c.tags| ==> Carries(c.produced[k], c.tags[k]) && c.tags[k].index == k % c.capacity)
  }

  predicate InLoop(capacity: nat, pc: Pc) {
    && (pc.CTest? ==> pc.i <= capacity)
    && (pc.CRead? || pc.CPost? ==> pc.i < capacity)
  }

  ghost predicate Inv(s: State) {
    var z := SumsOf(s.crate.capacity, s.pcs);
    && Balanced(s.crate, z)
    && Logged(s.crate, s.crate.filled + z.unrecorded, z.read)
    && (forall p :: p in s.pcs ==> InLoop(s.crate.capacity, s.pcs[p]))
  }

  // ---- sums ----

  lemma PlusByParts(z: Sums, y: Sums, x: Sums)
    requires z.critical == y.critical + x.critical && z.awake == y.awake + x.awake
    requires z.checking == y.checking + x.checking && z.uncounted == y.uncounted + x.uncounted
    requires z.draining == y.draining + x.draining && z.unrecorded == y.unrecorded + x.unrecorded
    requires z.posted == y.posted + x.posted && z.read == y.read + x.read
    ensures z == y.Plus(x)
  {
  }

  /** All processes together are one process and the others. */
  lemma SumsSplit(capacity: nat, pcs: map<Pid, Pc>, p: Pid)
    requires p in pcs
    ensures SumsOf(capacity, pcs) == SumsOf(capacity, pcs - {p}).Plus(Share(capacity, pcs[p]))
  {
    TotalRemove(pcs, Critical, p);
    TotalRemove(pcs, Awake, p);
    TotalRemove(pcs, Checking, p);
    TotalRemove(pcs, Draining, p);
    TotalRemove(pcs, Uncounted, p);
    TotalRemove(pcs, Unrecorded, p);
    TotalRemove(pcs, PostedOf(capacity), p);
    TotalRemove(pcs, ReadOf(capacity), p);
    PlusByParts(SumsOf(capacity, pcs), SumsOf(capacity, pcs - {p}), Share(capacity, pcs[p]));
  }

  /** Only the process in the critical section checks, records, posts or reads. */
  lemma OutsideCritical(capacity: nat, pcs: map<Pid, Pc>)
    requires Total(pcs, Critical) == 0
    ensures var z := SumsOf(capacity, pcs);
            z.checking == z.draining == z.unrecorded == z.posted == z.read == 0
  {
    ZeroTotal(pcs, Critical);
    assert forall j :: j in pcs ==> Critical(pcs[j]) == 0 && !pcs[j].Holds();
    TotalZero(pcs, Checking);
    TotalZero(pcs, Draining);
    TotalZero(pcs, Unrecorded);
    TotalZero(pcs, PostedOf(capacity));
    TotalZero(pcs, ReadOf(capacity));
  }

  /** What a process in the critical section may rely on about the others. */
  ghost predicate Alone(pc: Pc, others: Sums) {
    pc.Holds() ==> others.checking == others.draining == others.unrecorded == others.posted == others.read == 0
  }

  /** The invariant seen by process `p`. */
  lemma Viewpoint(s: State, p: Pid) returns (others: Sums)
    requires Inv(s) && p in s.pcs
    ensures others == SumsOf(s.crate.capacity, s.pcs - {p})
    ensures SumsOf(s.crate.capacity, s.pcs) == others.Plus(Share(s.crate.capacity, s.pcs[p]))
    ensures Alone(s.pcs[p], others)
  {
    others := SumsOf(s.crate.capacity, s.pcs - {p});
    SumsSplit(s.crate.capacity, s.pcs, p);
    if s.pcs[p].Holds() {
      OutsideCritical(s.crate.capacity, s.pcs - {p});
    }
  }

  // ---- preservation ----

  ghost predicate BalancedAfter(c: Crate, p: Pid, pc: Pc, others: Sums)
    requires Do(c, p, pc).Go?
  {
    var e := Do(c, p, pc);
    && e.crate.capacity == c.capacity
    && Balanced(e.crate, others.Plus(Share(c.capacity, e.pc)))
    && InLoop(c.capacity, e.pc)
  }

  lemma WaiterBalanced(c: Crate, p: Pid, pc: Pc, others: Sums)
    requires Balanced(c, others.Plus(Share(c.capacity, pc))) && Alone(pc, others)
    requires Do(c, p, pc).Go? && (pc.PWaitPermit? || pc.PWaitMem? || pc.PWrite?)
    ensures BalancedAfter(c, p, pc, others)
  {
  }

  lemma CounterBalanced(c: Crate, p: Pid, pc: Pc, others: Sums)
    requires Balanced(c, others.Plus(Share(c.capacity, pc))) && Alone(pc, others)
    requires Do(c, p, pc).Go? && (pc.PCount? || pc.PCheck?)
    ensures BalancedAfter(c, p, pc, others)
  {
  }

  lemma LeaverBalanced(c: Crate, p: Pid, pc: Pc, others: Sums)
    requires Balanced(c, others.Plus(Share(c.capacity, pc))) && Alone(pc, others)
    requires Do(c, p, pc).Go? && (pc.PSignal? || pc.PRelease?)
    ensures BalancedAfter(c, p, pc, others)
  {
  }

  lemma ProducerBalanced(c: Crate, p: Pid, pc: Pc, others: Sums)
    requires Balanced(c, others.Plus(Share(c.capacity, pc))) && Alone(pc, others)
    requires Do(c, p, pc).Go? && pc.IsProducer()
    ensures BalancedAfter(c, p, pc, others)
  {
    hide Do, Balanced, Share, Alone, BalancedAfter;
    if pc.PWaitPermit? || pc.PWaitMem? || pc.PWrite? {
      WaiterBalanced(c, p, pc, others);
    } else if pc.PCount? || pc.PCheck? {
      CounterBalanced(c, p, pc, others);
    } else {
      LeaverBalanced(c, p, pc, others);
    }
  }

  lemma ConsumerBalanced(c: Crate, p: Pid, pc: Pc, others: Sums)
    requires Balanced(c, others.Plus(Share(c.capacity, pc))) && Alone(pc, others) && InLoop(c.capacity, pc)
    requires Do(c, p, pc).Go? && !pc.IsProducer()
    ensures BalancedAfter(c, p, pc, others)
  {
  }

  lemma WriteLogged(c: Crate, p: Pid, read: nat)
    requires Logged(c, c.filled, read) && c.filled < c.capacity && Do(c, p, PWrite).Go?
    ensures Logged(Do(c, p, PWrite).crate, c.filled + 1, read)
  {
    var tag := Tag(p, c.filled);
    var cell := Deposit(c.data[c.filled], TagText(tag));
    DepositCarries(c.data[c.filled], tag);
    assert Do(c, p, PWrite).crate
        == c.(data := c.data[c.filled := cell], tags := c.tags + [tag], produced := c.produced + [cell]);
    CellLogged(c, read, cell, tag);
  }

  /** An item written into the first free slot is logged. */
  lemma CellLogged(c: Crate, read: nat, cell: Cell, tag: Tag)
    requires Logged(c, c.filled, read) && c.filled < c.capacity && Carries(cell, tag) && tag.index == c.filled
    ensures Logged(c.(data := c.data[c.filled := cell], tags := c.tags + [tag], produced := c.produced + [cell]),
                   c.filled + 1, read)
  {
    hide Carries;
    var base := c.capacity * c.batches;
    RemainderOf(c.capacity, c.batches, c.filled);
    forall k | 0 <= k < |c.tags| + 1
      ensures Carries((c.produced + [cell])[k], (c.tags + [tag])[k]) && (c.tags + [tag])[k].index == k % c.capacity
    {
      if k < |c.tags| { assert Carries(c.produced[k], c.tags[k]); }
    }
  }

  lemma ReadLogged(c: Crate, p: Pid, i: nat)
    requires Logged(c, c.filled, i) && i < c.filled
    ensures Do(c, p, CRead(i)).Go? && Logged(Do(c, p, CRead(i)).crate, c.filled, i + 1)
  {
  }

  lemma ResetLogged(c: Crate, p: Pid)
    requires Logged(c, c.capacity, c.capacity)
    ensures Logged(Do(c, p, CReset).crate, 0, 0)
  {
    assert c.capacity * (c.batches + 1) == c.capacity * c.batches + c.capacity;
  }

  /** The steps that leave slots, logs and the batch count alone. */
  predicate Quiet(pc: Pc) { !pc.PWrite? && !pc.CRead? && !pc.CReset? }

  lemma QuietKeeps(c: Crate, p: Pid, pc: Pc)
    requires Quiet(pc) && Do(c, p, pc).Go?
    ensures var d := Do(c, p, pc).crate;
            && d.capacity == c.capacity && d.data == c.data && d.batches == c.batches
            && d.tags == c.tags && d.produced == c.produced && d.delivered == c.delivered
    ensures var e := Do(c, p, pc);
            && e.crate.filled + Unrecorded(e.pc) == c.filled + Unrecorded(pc)
            && (InLoop(c.capacity, pc) ==> Read(c.capacity, e.pc) == Read(c.capacity, pc))
  {
  }

  lemma LoggedKept(c: Crate, d: Crate, written: nat, read: nat)
    requires Logged(c, written, read)
    requires d.capacity == c.capacity && d.data == c.data && d.batches == c.batches
    requires d.tags == c.tags && d.produced == c.produced && d.delivered == c.delivered
    ensures Logged(d, written, read)
  {
  }

  /** A producer in front of the write sees a crate that is not full, a drain a full one. */
  lemma FilledAt(c: Crate, pc: Pc, others: Sums)
    requires Balanced(c, others.Plus(Share(c.capacity, pc))) && Alone(pc, others)
    ensures pc.PWrite? || pc.PCount? ==> c.filled < c.capacity
    ensures pc.Drains() || pc.CWaitMem? ==> c.filled == c.capacity
  {
  }

  /** `u` and `r` are what the other processes have unrecorded and read. */
  lemma LoggedStep(c: Crate, p: Pid, pc: Pc, u: nat, r: nat)
    requires Logged(c, c.filled + u + Unrecorded(pc), r + Read(c.capacity, pc))
    requires InLoop(c.capacity, pc) && (pc.Holds() ==> u == r == 0)
    requires pc.PWrite? ==> c.filled < c.capacity
    requires pc.Drains() ==> c.filled == c.capacity
    requires Do(c, p, pc).Go?
    ensures var e := Do(c, p, pc);
            Logged(e.crate, e.crate.filled + u + Unrecorded(e.pc), r + Read(e.crate.capacity, e.pc))
  {
    hide Logged;
    if Quiet(pc) {
      hide Do, Unrecorded, Read, InLoop;
      QuietKeeps(c, p, pc);
      LoggedKept(c, Do(c, p, pc).crate, c.filled + u + Unrecorded(pc), r + Read(c.capacity, pc));
    } else {
      match pc
      case PWrite => WriteLogged(c, p, r);
      case CRead(i) => ReadLogged(c, p, i);
      case CReset => ResetLogged(c, p);
    }
  }

  lemma InvInitial(s: State)
    requires Initial(s) && s.crate.capacity >= 1
    ensures Inv(s)
  {
    hide SumsOf, Logged, Balanced;
    WaitingSums(s.crate.capacity, s.pcs);
    NothingLogged(s.crate);
    StartBalanced(s.crate, SumsOf(s.crate.capacity, s.pcs));
  }

  /** Processes at the top of their loops weigh nothing together. */
  lemma WaitingSums(capacity: nat, pcs: map<Pid, Pc>)
    requires forall p :: p in pcs ==> pcs[p] == PWaitPermit || pcs[p] == CWaitReady
    ensures SumsOf(capacity, pcs) == Sums(0, 0, 0, 0, 0, 0, 0, 0)
  {
    forall p | p in pcs ensures Critical(pcs[p]) == Awake(pcs[p]) == Uncounted(pcs[p]) == 0 {
      assert pcs[p] == PWaitPermit || pcs[p] == CWaitReady;
    }
    hide Critical, Awake, Uncounted;
    TotalZero(pcs, Critical);
    TotalZero(pcs, Awake);
    TotalZero(pcs, Uncounted);
    OutsideCritical(capacity, pcs);
  }

  lemma NothingLogged(c: Crate)
    requires c.tags == [] && c.produced == [] && c.delivered == [] && c.batches == 0 && |c.data| == c.capacity
    ensures Logged(c, 0, 0)
  {
    hide Carries;
  }

  lemma StartBalanced(c: Crate, z: Sums)
    requires c.capacity >= 1 && c.filled == 0 && c.permits == c.capacity && c.mem == 1 && c.ready == 0
    requires z == Sums(0, 0, 0, 0, 0, 0, 0, 0)
    ensures Balanced(c, z)
  {
  }

  lemma InvStep(s: State, p: Pid)
    requires Inv(s) && Next(s, p).Moved?
    ensures Inv(Next(s, p).next)
  {
    hide Do, Balanced, Logged, InLoop, SumsOf, Critical, Awake, Checking, Uncounted, Posted, Unrecorded, Read;
    var others := Viewpoint(s, p);
    var t := Next(s, p).next;
    if s.pcs[p].IsProducer() {
      ProducerBalanced(s.crate, p, s.pcs[p], others);
    } else {
      ConsumerBalanced(s.crate, p, s.pcs[p], others);
    }
    assert BalancedAfter(s.crate, p, s.pcs[p], others);
    FilledAt(s.crate, s.pcs[p], others);
    LoggedStep(s.crate, p, s.pcs[p], others.unrecorded, others.read);
    SumsSplit(s.crate.capacity, t.pcs, p);
    assert t.pcs - {p} == s.pcs - {p};
  }

  lemma {:induction false} InvRun(s: State, schedule: seq<Pid>)
    requires Inv(s) && Run(s, schedule).Moved?
    ensures Inv(Run(s, schedule).next)
    decreases |schedule|
  {
    if schedule == [] {
    } else {
      InvStep(s, schedule[0]);
      InvRun(Next(s, schedule[0]).next, schedule[1..]);
    }
  }
}

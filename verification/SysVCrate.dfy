/** The crate over System V semaphores (semaphores-pr/vproducer.cpp, vcrate.cpp):
    two semaphores are taken in one atomic operation, and a drain returns its
    permits only together with the memory semaphore, after the reset.

    The memory and the semaphores are those of the POSIX crate; only the
    programs differ. Every run is simulated by a run of the POSIX crate. */
module SysVCrate {
  import opened Processes
  import opened CrateTypes
  import opened PosixCrate

  datatype VPc =
    | VPWait | VPWrite | VPCount | VPCheck | VPSignal | VPRelease
    | VCWait | VCTest(i: nat) | VCRead(i: nat) | VCReset | VCReturn
  {
    predicate IsProducer() {
      VPWait? || VPWrite? || VPCount? || VPCheck? || VPSignal? || VPRelease?
    }
  }

  datatype VEffect = VGo(crate: Crate, pc: VPc) | VStay | VCrash

  function VDo(c: Crate, p: Pid, pc: VPc): VEffect {
    match pc
    case VPWait =>
      if c.permits == 0 || c.mem == 0 then VStay
      else VGo(c.(permits := c.permits - 1, mem := c.mem - 1), VPWrite)
    case VPWrite =>
      if c.filled < |ITEM_NAMES| && c.filled < |c.data| then
        var tag := Tag(p, c.filled);
        var cell := Deposit(c.data[c.filled], TagText(tag));
        VGo(c.(data := c.data[c.filled := cell], tags := c.tags + [tag], produced := c.produced + [cell]), VPCount)
      else VCrash
    case VPCount => VGo(c.(filled := c.filled + 1), VPCheck)
    case VPCheck => VGo(c, if c.filled == c.capacity then VPSignal else VPRelease)
    case VPSignal => VGo(c.(ready := c.ready + 1), VPRelease)
    case VPRelease => VGo(c.(mem := c.mem + 1), VPWait)
    case VCWait =>
      if c.ready == 0 || c.mem == 0 then VStay
      else VGo(c.(ready := c.ready - 1, mem := c.mem - 1), VCTest(0))
    case VCTest(i) => VGo(c, if i < c.capacity then VCRead(i) else VCReset)
    case VCRead(i) =>
      if i < |c.data| then VGo(c.(delivered := c.delivered + [c.data[i]]), VCTest(i + 1)) else VCrash
    case VCReset => VGo(c.(filled := 0, batches := c.batches + 1), VCReturn)
    case VCReturn =>
      if c.capacity == 0 && c.permits > 0 then VStay
      else VGo(c.(permits := c.permits + c.capacity, mem := c.mem + 1), VCWait)
  }

  datatype VState = VState(crate: Crate, pcs: map<Pid, VPc>)

  datatype VOutcome = VMoved(next: VState) | VBlocked | VFault

  function VNext(v: VState, p: Pid): VOutcome {
    if p !in v.pcs then VBlocked
    else match VDo(v.crate, p, v.pcs[p])
      case VGo(c, pc) => VMoved(VState(c, v.pcs[p := pc]))
      case VStay => VBlocked
      case VCrash => VFault
  }

  function VRun(v: VState, schedule: seq<Pid>): VOutcome
    decreases |schedule|
  {
    if schedule == [] then VMoved(v)
    else match VNext(v, schedule[0])
      case VMoved(w) => VRun(w, schedule[1..])
      case VBlocked => VBlocked
      case VFault => VFault
  }

  ghost predicate VInitial(v: VState) {
    && v.crate.filled == 0
    && |v.crate.data| == v.crate.capacity
    && v.crate.permits == v.crate.capacity && v.crate.mem == 1 && v.crate.ready == 0
    && v.crate.tags == [] && v.crate.produced == [] && v.crate.delivered == [] && v.crate.batches == 0
    && (forall p :: p in v.pcs ==> v.pcs[p] == VPWait || v.pcs[p] == VCWait)
  }
}

module SysVSimulation {
  import opened Processes
  import opened CrateTypes
  import opened Tally
  import opened PosixCrate
  import opened PosixCrateInvariant
  import opened PosixCrateRefinement
  import opened PosixCrateSafety
  import opened PosixCrateProgress
  import opened SysVCrate

  /** The POSIX program point a System V program point stands for. */
  function ImagePc(pc: VPc): Pc {
    match pc
    case VPWait => PWaitPermit
    case VPWrite => PWrite
    case VPCount => PCount
    case VPCheck => PCheck
    case VPSignal => PSignal
    case VPRelease => PRelease
    case VCWait => CWaitReady
    case VCTest(i) => CTest(i)
    case VCRead(i) => CRead(i)
    case VCReset => CReset
    case VCReturn => CRelease
  }

  /** Permits the POSIX program has already posted and this one still owes. */
  function Owed(capacity: nat, pc: VPc): nat {
    if pc.VCTest? || pc.VCRead? then pc.i
    else if pc.VCReset? || pc.VCReturn? then capacity else 0
  }

  function OwedOf(capacity: nat): VPc -> nat { (pc: VPc) => Owed(capacity, pc) }

  function ImagePcs(pcs: map<Pid, VPc>): map<Pid, Pc> { map p | p in pcs :: ImagePc(pcs[p]) }

  function Lend(c: Crate, owed: nat): Crate { c.(permits := c.permits + owed) }

  /** The POSIX state a System V state stands for: same slots, same logs, same
      semaphores, except for the permits still owed. */
  ghost function Image(v: VState): State {
    State(Lend(v.crate, Total(v.pcs, OwedOf(v.crate.capacity))), ImagePcs(v.pcs))
  }

  /** The POSIX steps that one System V step stands for: a grouped wait is two
      waits, and reading a slot also posts a permit. */
  function Word(p: Pid, pc: VPc): seq<Pid> {
    if pc.VPWait? || pc.VCWait? || pc.VCRead? then [p, p] else [p]
  }

  /** The same on the crate alone; `owed` is what the other processes owe. */
  ghost predicate Matches(c: Crate, p: Pid, pc: VPc, owed: nat)
    requires VDo(c, p, pc).VGo?
  {
    var e := VDo(c, p, pc);
    var d := Do(Lend(c, owed + Owed(c.capacity, pc)), p, ImagePc(pc));
    var goal := Go(Lend(e.crate, owed + Owed(c.capacity, e.pc)), ImagePc(e.pc));
    if |Word(p, pc)| == 1 then d == goal
    else d.Go? && Do(d.crate, p, d.pc) == goal
  }

  lemma ProducerMatches(c: Crate, p: Pid, pc: VPc, owed: nat)
    requires VDo(c, p, pc).VGo? && pc.IsProducer()
    ensures Matches(c, p, pc, owed)
  {
    hide Matches, VDo;
    if pc.VPWait? {
      WaitMatches(c, p, owed);
    } else {
      SingleMatches(c, p, pc, owed);
    }
  }

  lemma WaitMatches(c: Crate, p: Pid, owed: nat)
    requires VDo(c, p, VPWait).VGo?
    ensures Matches(c, p, VPWait, owed)
  {
  }

  lemma SingleMatches(c: Crate, p: Pid, pc: VPc, owed: nat)
    requires VDo(c, p, pc).VGo? && pc.IsProducer() && !pc.VPWait?
    ensures Matches(c, p, pc, owed)
  {
  }

  lemma DrainMatches(c: Crate, p: Pid, pc: VPc, owed: nat)
    requires VDo(c, p, pc).VGo? && (pc.VCTest? || pc.VCRead?)
    requires pc.VCTest? ==> pc.i <= c.capacity
    ensures Matches(c, p, pc, owed)
  {
  }

  lemma ConsumerMatches(c: Crate, p: Pid, pc: VPc, owed: nat)
    requires VDo(c, p, pc).VGo? && (pc.VCWait? || pc.VCReset? || pc.VCReturn?)
    ensures Matches(c, p, pc, owed)
  {
  }

  lemma ImageUpdate(pcs: map<Pid, VPc>, p: Pid, pc: VPc)
    ensures ImagePcs(pcs[p := pc]) == ImagePcs(pcs)[p := ImagePc(pc)]
  {
  }

  lemma VShape(v: VState, p: Pid)
    requires VNext(v, p).VMoved?
    ensures p in v.pcs && VDo(v.crate, p, v.pcs[p]).VGo?
    ensures var e := VDo(v.crate, p, v.pcs[p]); VNext(v, p).next == VState(e.crate, v.pcs[p := e.pc])
    ensures VNext(v, p).next.crate.capacity == v.crate.capacity
  {
  }

  lemma RunWord(s: State, p: Pid)
    requires p in s.pcs
    ensures Run(s, [p]) == Next(s, p)
    ensures Next(s, p).Moved? ==> Run(s, [p, p]) == Next(Next(s, p).next, p)
  {
    RunOne(s, p);
    assert [p, p][1..] == [p];
    if Next(s, p).Moved? { RunOne(Next(s, p).next, p); }
  }

  lemma RunOne(s: State, p: Pid)
    ensures Run(s, [p]) == Next(s, p)
  {
    assert [p][1..] == [];
  }

  lemma ImageNext(s: State, p: Pid, pc: VPc, goal: Crate, goalPc: Pc)
    requires p in s.pcs
    requires if |Word(p, pc)| == 1 then Do(s.crate, p, s.pcs[p]) == Go(goal, goalPc)
             else Do(s.crate, p, s.pcs[p]).Go?
                  && Do(Do(s.crate, p, s.pcs[p]).crate, p, Do(s.crate, p, s.pcs[p]).pc) == Go(goal, goalPc)
    ensures Run(s, Word(p, pc)) == Moved(State(goal, s.pcs[p := goalPc]))
  {
    hide Do, Run;
    RunWord(s, p);
    if |Word(p, pc)| == 1 {
      NextGo(s, p, goal, goalPc);
    } else {
      var e := Do(s.crate, p, s.pcs[p]);
      NextGo(s, p, e.crate, e.pc);
      NextGo(State(e.crate, s.pcs[p := e.pc]), p, goal, goalPc);
      TwiceUpdated(s.pcs, p, e.pc, goalPc);
    }
  }

  lemma NextGo(s: State, p: Pid, c: Crate, pc: Pc)
    requires p in s.pcs && Do(s.crate, p, s.pcs[p]) == Go(c, pc)
    ensures Next(s, p) == Moved(State(c, s.pcs[p := pc]))
  {
    hide Do;
  }

  lemma TwiceUpdated(pcs: map<Pid, Pc>, p: Pid, x: Pc, y: Pc)
    ensures pcs[p := x][p := y] == pcs[p := y]
  {
  }

  lemma DrainBound(v: VState, p: Pid)
    requires Inv(Image(v)) && p in v.pcs && v.pcs[p].VCTest?
    ensures v.pcs[p].i <= v.crate.capacity
  {
    hide Balanced, Logged, SumsOf;
    assert InLoop(v.crate.capacity, Image(v).pcs[p]);
  }

  lemma ImageOf(v: VState, p: Pid)
    requires p in v.pcs
    ensures var c := v.crate.capacity;
            Image(v).crate == Lend(v.crate, Total(v.pcs - {p}, OwedOf(c)) + Owed(c, v.pcs[p]))
    ensures Image(v).pcs == ImagePcs(v.pcs) && p in Image(v).pcs && Image(v).pcs[p] == ImagePc(v.pcs[p])
  {
    TotalRemove(v.pcs, OwedOf(v.crate.capacity), p);
  }

  /** One System V step is simulated by its word of POSIX steps. */
  lemma Simulates(v: VState, p: Pid)
    requires VNext(v, p).VMoved? && Inv(Image(v))
    ensures Run(Image(v), Word(p, v.pcs[p])) == Moved(Image(VNext(v, p).next))
  {
    hide VDo, VNext, Do, Next, Run, Inv, Lend, Owed, ImagePcs, Image;
    VShape(v, p);
    var w, pc := VNext(v, p).next, v.pcs[p];
    var owed := Total(v.pcs - {p}, OwedOf(v.crate.capacity));
    assert w.pcs - {p} == v.pcs - {p};
    ImageOf(v, p);
    ImageOf(w, p);
    if pc.IsProducer() {
      ProducerMatches(v.crate, p, pc, owed);
    } else if pc.VCTest? || pc.VCRead? {
      if pc.VCTest? { DrainBound(v, p); }
      DrainMatches(v.crate, p, pc, owed);
    } else {
      ConsumerMatches(v.crate, p, pc, owed);
    }
    ImageUpdate(v.pcs, p, w.pcs[p]);
    ImageNext(Image(v), p, pc, Image(w).crate, ImagePc(w.pcs[p]));
  }

  lemma ImageInitial(v: VState)
    requires VInitial(v) && v.crate.capacity >= 1
    ensures Initial(Image(v)) && Inv(Image(v)) && Image(v).crate == v.crate
  {
    TotalZero(v.pcs, OwedOf(v.crate.capacity));
    InvInitial(Image(v));
  }

  /** Every run of the System V crate is a run of the POSIX crate. */
  lemma {:induction false} RunSimulated(v: VState, schedule: seq<Pid>) returns (posix: seq<Pid>)
    requires VRun(v, schedule).VMoved? && Inv(Image(v))
    ensures Run(Image(v), posix) == Moved(Image(VRun(v, schedule).next))
    ensures |schedule| <= |posix| <= 2 * |schedule|
    decreases |schedule|
  {
    hide Inv, VNext, Image, Next;
    if schedule == [] {
      posix := [];
    } else {
      VShape(v, schedule[0]);
      var word := Word(schedule[0], v.pcs[schedule[0]]);
      Simulates(v, schedule[0]);
      InvRun(Image(v), word);
      var rest := RunSimulated(VNext(v, schedule[0]).next, schedule[1..]);
      RunConcat(Image(v), word, rest);
      posix := word + rest;
    }
  }

  /** With the same slots, the same state and the same logs. */
  lemma SameSlotsAndLogs(v: VState, schedule: seq<Pid>) returns (posix: seq<Pid>)
    requires VInitial(v) && v.crate.capacity >= 1 && VRun(v, schedule).VMoved?
    ensures Initial(Image(v)) && Run(Image(v), posix).Moved?
    ensures var c := VRun(v, schedule).next.crate;
            var d := Run(Image(v), posix).next.crate;
            && Inv(Run(Image(v), posix).next)
            && d.data == c.data && d.filled == c.filled && d.mem == c.mem && d.ready == c.ready
            && d.produced == c.produced && d.delivered == c.delivered && d.tags == c.tags
            && d.batches == c.batches && d.permits >= c.permits
  {
    ImageInitial(v);
    hide Inv, VRun, Run;
    posix := RunSimulated(v, schedule);
    InvRun(Image(v), posix);
  }

  // ---- what the System V crate owes to its image ----

  lemma VFaultImage(v: VState, p: Pid)
    requires VNext(v, p).VFault?
    ensures Next(Image(v), p).Fault?
  {
  }

  lemma SomeCapacity(v: VState)
    requires Inv(Image(v))
    ensures v.crate.capacity >= 1
  {
    hide Logged, SumsOf, InLoop;
  }

  lemma VInsiderMoves(v: VState, p: Pid)
    requires Inv(Image(v)) && v.crate.capacity <= |ITEM_NAMES|
    requires p in v.pcs && v.pcs[p] != VPWait && v.pcs[p] != VCWait
    ensures VNext(v, p).VMoved?
  {
    SomeCapacity(v);
    hide Inv;
    if VNext(v, p).VFault? {
      VFaultImage(v, p);
      NoFaultStep(Image(v), p);
    }
  }

  /** With everyone outside, the semaphores of the crate are those of its image. */
  lemma VWaitersMove(v: VState, producer: Pid, consumer: Pid)
    requires Inv(Image(v))
    requires forall p :: p in v.pcs ==> v.pcs[p] == VPWait || v.pcs[p] == VCWait
    requires producer in v.pcs && v.pcs[producer] == VPWait
    requires consumer in v.pcs && v.pcs[consumer] == VCWait
    ensures VNext(v, producer).VMoved? || VNext(v, consumer).VMoved?
  {
    hide Inv, Do;
    var s := Image(v);
    TotalZero(v.pcs, OwedOf(v.crate.capacity));
    WaitersMove(s, producer, consumer);
    MutexFreeOutside(s);
    WaitNeeds(s, producer);
    WaitNeeds(s, consumer);
  }

  lemma MutexFreeOutside(s: State)
    requires Inv(s)
    requires forall p :: p in s.pcs ==> s.pcs[p] == PWaitPermit || s.pcs[p] == CWaitReady
    ensures s.crate.mem == 1
  {
    TotalZero(s.pcs, Critical);
  }

  lemma WaitNeeds(s: State, p: Pid)
    requires p in s.pcs
    ensures Next(s, p).Moved? && s.pcs[p] == PWaitPermit ==> s.crate.permits > 0
    ensures Next(s, p).Moved? && s.pcs[p] == CWaitReady ==> s.crate.ready > 0
  {
  }

  /** Some process of the System V crate can always step. */
  lemma VNeverStuck(v: VState, producer: Pid, consumer: Pid)
    requires Inv(Image(v)) && v.crate.capacity <= |ITEM_NAMES|
    requires producer in v.pcs && v.pcs[producer].IsProducer()
    requires consumer in v.pcs && !v.pcs[consumer].IsProducer()
    ensures exists p :: VNext(v, p).VMoved?
  {
    hide Inv, VDo;
    if p :| p in v.pcs && v.pcs[p] != VPWait && v.pcs[p] != VCWait {
      VInsiderMoves(v, p);
    } else {
      VWaitersMove(v, producer, consumer);
    }
  }

  lemma VRoleKept(v: VState, p: Pid)
    requires VNext(v, p).VMoved?
    ensures var w := VNext(v, p).next;
            && w.crate.capacity == v.crate.capacity && w.pcs.Keys == v.pcs.Keys
            && forall q :: q in v.pcs ==> w.pcs[q].IsProducer() == v.pcs[q].IsProducer()
  {
  }

  lemma {:induction false} VRolesKept(v: VState, schedule: seq<Pid>)
    requires VRun(v, schedule).VMoved?
    ensures var w := VRun(v, schedule).next;
            && w.crate.capacity == v.crate.capacity && w.pcs.Keys == v.pcs.Keys
            && forall q :: q in v.pcs ==> w.pcs[q].IsProducer() == v.pcs[q].IsProducer()
    decreases |schedule|
  {
    hide VNext;
    if schedule == [] {
    } else {
      VRoleKept(v, schedule[0]);
      VRolesKept(VNext(v, schedule[0]).next, schedule[1..]);
    }
  }

  /** No schedule deadlocks the System V crate, and none makes it index out of range. */
  lemma VNoDeadlock(v: VState, schedule: seq<Pid>, producer: Pid, consumer: Pid)
    requires VInitial(v) && 1 <= v.crate.capacity <= |ITEM_NAMES|
    requires producer in v.pcs && v.pcs[producer].IsProducer()
    requires consumer in v.pcs && !v.pcs[consumer].IsProducer()
    requires VRun(v, schedule).VMoved?
    ensures exists p :: VNext(VRun(v, schedule).next, p).VMoved?
    ensures forall p :: !VNext(VRun(v, schedule).next, p).VFault?
  {
    ImageInitial(v);
    hide Inv, VNext, Next, VRun, Run;
    var posix := RunSimulated(v, schedule);
    InvRun(Image(v), posix);
    VRolesKept(v, schedule);
    var w := VRun(v, schedule).next;
    VNeverStuck(w, producer, consumer);
    forall p ensures !VNext(w, p).VFault? {
      if VNext(w, p).VFault? {
        VFaultImage(w, p);
        NoFaultStep(Image(w), p);
      }
    }
  }

  /** However it is scheduled, the System V crate delivers a batch at least every
      17 * capacity + 8 steps. */
  lemma VDeliveriesKeepPace(v: VState, schedule: seq<Pid>, k: nat)
    requires VInitial(v) && v.crate.capacity >= 1 && VRun(v, schedule).VMoved?
    requires |schedule| >= k * (Limit(v.crate.capacity) + 1)
    ensures var w := VRun(v, schedule).next;
            w.crate.batches >= k && |w.crate.delivered| >= v.crate.capacity * k
  {
    ImageInitial(v);
    assert Image(v).crate.capacity == v.crate.capacity >= 1;
    hide Inv, VRun, Run, Limit, VInitial, Initial;
    var posix := RunSimulated(v, schedule);
    DeliveriesKeepPace(Image(v), posix, k);
  }

  /** The System V crate delivers in order what is produced, too. */
  lemma VDeliveredInOrder(v: VState, schedule: seq<Pid>)
    requires VInitial(v) && v.crate.capacity >= 1 && VRun(v, schedule).VMoved?
    ensures var w := VRun(v, schedule).next;
            && Inv(Image(w))
            && w.crate.delivered + Abs(Image(w)).queue == w.crate.produced
  {
    ImageInitial(v);
    assert Image(v).crate.capacity == v.crate.capacity >= 1;
    hide Inv, VRun, Run, VInitial, Initial, Abs;
    var posix := RunSimulated(v, schedule);
    DeliveredInOrder(Image(v), posix);
  }
}

/** For which capacities the System V crate runs on. */
module SysVLimits {
  import opened Processes
  import opened CrateTypes
  import opened Tally
  import opened PosixCrate
  import opened PosixCrateInvariant
  import opened SysVCrate
  import opened SysVSimulation

  predicate CanMove(v: VState, p: Pid) { VNext(v, p).VMoved? }

  lemma {:induction false} VRunConcat(v: VState, a: seq<Pid>, b: seq<Pid>)
    requires VRun(v, a).VMoved?
    ensures VRun(v, a + b) == VRun(VRun(v, a).next, b)
    decreases |a|
  {
    hide VNext;
    if a == [] {
      assert a + b == b;
    } else {
      assert (a + b)[1..] == a[1..] + b;
      VRunConcat(VNext(v, a[0]).next, a[1..], b);
    }
  }

  /** Producer `p` has filled `k` slots on its own. */
  ghost predicate VFilling(v: VState, p: Pid, k: nat) {
    && k < v.crate.capacity == |v.crate.data|
    && p in v.pcs && v.pcs[p] == VPWait
    && v.crate.filled == k && v.crate.permits == v.crate.capacity - k && v.crate.mem == 1
  }

  lemma VOnePass(v: VState, p: Pid, k: nat)
    requires VFilling(v, p, k) && k < |ITEM_NAMES| && k + 1 < v.crate.capacity
    ensures VRun(v, [p, p, p, p, p]).VMoved? && VFilling(VRun(v, [p, p, p, p, p]).next, p, k + 1)
    ensures VRun(v, [p, p, p, p, p]).next.crate.capacity == v.crate.capacity
  {
    hide VRun, TagText, Deposit;
    var a := VNext(v, p).next;
    assert a.crate.filled < |ITEM_NAMES| && a.crate.filled < |a.crate.data| && a.pcs[p] == VPWrite;
    var b := VNext(a, p).next;
    var c := VNext(b, p).next;
    var d := VNext(c, p).next;
    var e := VNext(d, p).next;
    VPassRuns(v, a, b, c, d, e, p);
  }

  lemma VPassRuns(v: VState, a: VState, b: VState, c: VState, d: VState, e: VState, p: Pid)
    requires VNext(v, p) == VMoved(a) && VNext(a, p) == VMoved(b) && VNext(b, p) == VMoved(c)
    requires VNext(c, p) == VMoved(d) && VNext(d, p) == VMoved(e)
    ensures VRun(v, [p, p, p, p, p]) == VMoved(e)
  {
    hide VNext;
    assert [p, p, p, p, p][1..] == [p, p, p, p] && [p, p, p, p][1..] == [p, p, p];
    assert [p, p, p][1..] == [p, p] && [p, p][1..] == [p] && [p][1..] == [];
    assert VRun(d, [p]) == VMoved(e);
    assert VRun(c, [p, p]) == VRun(d, [p]);
    assert VRun(b, [p, p, p]) == VRun(c, [p, p]);
    assert VRun(a, [p, p, p, p]) == VRun(b, [p, p, p]);
  }

  lemma {:induction false} VFillAlone(v: VState, p: Pid, k: nat) returns (schedule: seq<Pid>)
    requires VFilling(v, p, 0) && k <= |ITEM_NAMES| && k < v.crate.capacity
    ensures VRun(v, schedule).VMoved? && VFilling(VRun(v, schedule).next, p, k)
    ensures VRun(v, schedule).next.crate.capacity == v.crate.capacity
    decreases k
  {
    hide VNext;
    schedule := [];
    if k == 0 {
    } else {
      var before := VFillAlone(v, p, k - 1);
      VOnePass(VRun(v, before).next, p, k - 1);
      VRunConcat(v, before, [p, p, p, p, p]);
      schedule := before + [p, p, p, p, p];
    }
  }

  /** The producer that has no name for its item keeps the mutex, and everyone else
      waits for it at the top of the loop. */
  lemma VJams(v: VState, p: Pid)
    requires VFilling(v, p, |ITEM_NAMES|) && Inv(Image(v))
    ensures VRun(v, [p]).VMoved? && VNext(VRun(v, [p]).next, p).VFault?
    ensures forall q :: !CanMove(VRun(v, [p]).next, q)
  {
    var t := VNext(v, p).next;
    assert [p][1..] == [] && VRun(t, []) == VMoved(t);
    assert VRun(v, [p]) == VMoved(t);
    hide Inv, VRun, TagText, Deposit;
    forall q ensures !CanMove(t, q) {
      if q in t.pcs && q != p { OutsideWhileFree(v, q); }
    }
  }

  lemma OutsideWhileFree(v: VState, q: Pid)
    requires Inv(Image(v)) && v.crate.mem == 1 && q in v.pcs
    ensures v.pcs[q] == VPWait || v.pcs[q] == VCWait
  {
    hide Logged, Owed;
    var s := Image(v);
    assert Total(s.pcs, Critical) == 0;
    ZeroTotal(s.pcs, Critical);
    assert Critical(s.pcs[q]) == 0;
  }

  /** With a producer and a consumer every schedule can go on for ever exactly when
      the crate is made for at least one item and at most as many as there are names. */
  lemma VRunsOnExactlyWhen(v: VState, producer: Pid, consumer: Pid)
    requires VInitial(v)
    requires producer in v.pcs && v.pcs[producer] == VPWait
    requires consumer in v.pcs && v.pcs[consumer] == VCWait
    ensures (forall schedule :: VRun(v, schedule).VMoved? ==> exists p :: CanMove(VRun(v, schedule).next, p))
            <==> 1 <= v.crate.capacity <= |ITEM_NAMES|
  {
    hide Inv, VFilling;
    if v.crate.capacity == 0 {
      assert VRun(v, []) == VMoved(v);
      forall p ensures !CanMove(v, p) { }
    } else if v.crate.capacity > |ITEM_NAMES| {
      var schedule := VReachJam(v, producer);
      assert VRun(v, schedule).VMoved?;
    } else {
      forall schedule | VRun(v, schedule).VMoved? ensures exists p :: CanMove(VRun(v, schedule).next, p) {
        VNoDeadlock(v, schedule, producer, consumer);
        var p :| VNext(VRun(v, schedule).next, p).VMoved?;
        assert CanMove(VRun(v, schedule).next, p);
      }
    }
  }

  lemma VReachJam(v: VState, p: Pid) returns (schedule: seq<Pid>)
    requires VInitial(v) && v.crate.capacity > |ITEM_NAMES| && p in v.pcs && v.pcs[p] == VPWait
    ensures VRun(v, schedule).VMoved? && forall q :: !CanMove(VRun(v, schedule).next, q)
  {
    assert VFilling(v, p, 0);
    ImageInitial(v);
    hide Inv, VFilling, VNext, VInitial, Initial, VRun, Run, Image, CanMove;
    var fill := VFillAlone(v, p, |ITEM_NAMES|);
    var posix := RunSimulated(v, fill);
    InvRun(Image(v), posix);
    VJams(VRun(v, fill).next, p);
    VRunConcat(v, fill, [p]);
    schedule := fill + [p];
  }
}

/** What a consumer of the System V crate prints of a slot. */
module SysVCrateText {
  import opened Processes
  import opened Numerals
  import opened CrateTypes
  import opened PosixCrate
  import opened PosixCrateText
  import opened PosixCrateSafety
  import opened SysVCrate
  import opened SysVSimulation

  /** From zeroed slots, in every run: an item is shown whole exactly when no earlier item
      in its slot came from a process with a longer id. */
  lemma VShownWholeExactlyWhen(v: VState, schedule: seq<Pid>, k: nat)
    requires VInitial(v) && v.crate.capacity >= 1 && VRun(v, schedule).VMoved?
    requires forall i, x :: 0 <= i < |v.crate.data| && 0 <= x < CELL_SIZE ==> v.crate.data[i][x] == '\0'
    requires forall p :: p in v.pcs ==> p < Power10(10)
    requires k < |VRun(v, schedule).next.crate.tags|
    ensures WholeWhenNoneLonger(VRun(v, schedule).next.crate, k)
  {
    ImageInitial(v);
    assert Zeroed(Image(v)) by { hide VInitial, Initial; }
    hide VRun, Run, VInitial, Initial, Image, Power10, CString, TagText, Decimal;
    var posix := SameSlotsAndLogs(v, schedule);
    ShownWholeExactlyWhen(Image(v), posix, k);
    VRolesKept(v, schedule);
    RolesKept(Image(v), posix);
  }
}

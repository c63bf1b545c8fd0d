/** `MQueue` is a FIFO under all interleavings of any number of senders and receivers. */
module MQueueFifo {
  import opened Processes
  import opened Tally
  import opened MQueue
  import opened MQueueSystem
  import opened RingBuffer

  // ---- what one call contributes ----

  function Locked(c: Call): nat { if c.Holds() then 1 else 0 }

  /** A free slot taken and not yet filled. */
  function Reserved(c: Call): nat { if c.SMutex? || c.SCopy? || c.SAdvance? then 1 else 0 }

  /** A message put in and not yet announced. */
  function Unannounced(c: Call): nat { if c.SUnlock? || c.SEmpty? then 1 else 0 }

  /** An announced message claimed and not yet taken out. */
  function Claimed(c: Call): nat { if c.RMutex? || c.RCopy? || c.RAdvance? then 1 else 0 }

  /** A message taken out whose slot is not yet released. */
  function Unreleased(c: Call): nat { if c.RUnlock? || c.RFull? then 1 else 0 }

  datatype Sums = Sums(locked: nat, reserved: nat, unannounced: nat, claimed: nat, unreleased: nat) {
    function Plus(z: Sums): Sums {
      Sums(locked + z.locked, reserved + z.reserved, unannounced + z.unannounced,
           claimed + z.claimed, unreleased + z.unreleased)
    }
  }

  function Share(c: Call): Sums {
    Sums(Locked(c), Reserved(c), Unannounced(c), Claimed(c), Unreleased(c))
  }

  ghost function SumsOf(calls: map<Pid, Call>): Sums {
    Sums(Total(calls, Locked), Total(calls, Reserved), Total(calls, Unannounced),
         Total(calls, Claimed), Total(calls, Unreleased))
  }

  // ---- the invariant ----

  /** Every slot is free, reserved, holds a message or is about to be released;
      every message is announced, claimed or about to be announced. */
  ghost predicate Balanced(r: Ring, z: Sums) {
    var held := |r.sent| - |r.received|;
    && r.mutex + z.locked == 1
    && r.full + z.reserved + held + z.unreleased == r.cap
    && held == r.empty + z.claimed + z.unannounced
  }

  /** What a call knows about the ring at the point where it is. */
  ghost predicate Knows(r: Ring, c: Call) {
    && (c.SFull? || c.SMutex? || c.SCopy? || c.SAdvance? ==> |c.msg| == r.size)
    && (c.SAdvance? ==> r.rear * r.size + r.size <= |r.data| && Slot(r.data, r.size, r.rear) == c.msg)
    && (c.RAdvance? ==> |r.received| < |r.sent| && c.msg == r.sent[|r.received|])
  }

  ghost predicate Inv(s: State) {
    && Ordered(s.ring) && Balanced(s.ring, SumsOf(s.calls))
    && forall p :: p in s.calls ==> Knows(s.ring, s.calls[p])
  }

  lemma PlusByParts(z: Sums, y: Sums, x: Sums)
    requires z.locked == y.locked + x.locked && z.reserved == y.reserved + x.reserved
    requires z.unannounced == y.unannounced + x.unannounced
    requires z.claimed == y.claimed + x.claimed && z.unreleased == y.unreleased + x.unreleased
    ensures z == y.Plus(x)
  {
  }

  lemma SumsSplit(calls: map<Pid, Call>, p: Pid)
    requires p in calls
    ensures SumsOf(calls) == SumsOf(calls - {p}).Plus(Share(calls[p]))
  {
    TotalRemove(calls, Locked, p);
    TotalRemove(calls, Reserved, p);
    TotalRemove(calls, Unannounced, p);
    TotalRemove(calls, Claimed, p);
    TotalRemove(calls, Unreleased, p);
    PlusByParts(SumsOf(calls), SumsOf(calls - {p}), Share(calls[p]));
  }

  // ---- preservation ----

  /** A copying sender finds a free slot, a copying receiver a message. */
  lemma RoomOrMessage(r: Ring, c: Call, others: Sums)
    requires Balanced(r, others.Plus(Share(c)))
    ensures c.SMutex? || c.SCopy? || c.SAdvance? ==> |r.sent| - |r.received| < r.cap
    ensures c.RMutex? || c.RCopy? || c.RAdvance? ==> |r.received| < |r.sent|
  {
  }

  /** A call that is not blocked by a semaphore does not fault either. */
  lemma CallProceeds(r: Ring, c: Call, others: Sums)
    requires Ordered(r) && Balanced(r, others.Plus(Share(c))) && Knows(r, c)
    ensures !Do(r, c).Crash?
    ensures Do(r, c).Stay? <==> c.Returned() || (c.SFull? && r.full == 0) || (c.REmpty? && r.empty == 0)
                                || ((c.SMutex? || c.RMutex?) && r.mutex == 0)
  {
    RoomOrMessage(r, c, others);
    if c.SCopy? { CopyKeepsOrder(r, c.msg); }
    if c.RCopy? { CopyReadsOldest(r); }
  }

  lemma BalancedStep(r: Ring, c: Call, others: Sums)
    requires Balanced(r, others.Plus(Share(c))) && Do(r, c).Go?
    ensures Balanced(Do(r, c).ring, others.Plus(Share(Do(r, c).call)))
  {
  }

  lemma OrderedStep(r: Ring, c: Call, others: Sums)
    requires Ordered(r) && Balanced(r, others.Plus(Share(c))) && Knows(r, c) && Do(r, c).Go?
    ensures Ordered(Do(r, c).ring) && Knows(Do(r, c).ring, Do(r, c).call)
    ensures var r' := Do(r, c).ring;
            && r'.size == r.size && r'.cap == r.cap
            && if c.SAdvance? then Contents(r') == Contents(r) + [c.msg]
               else if c.RAdvance? then Contents(r) == [c.msg] + Contents(r')
               else Contents(r') == Contents(r)
  {
    RoomOrMessage(r, c, others);
    hide Ordered, Balanced;
    match c
    case SCopy(m) => CopyKeepsOrder(r, m);
    case SAdvance(m) => AdvanceRear(r, m);
    case RCopy => CopyReadsOldest(r);
    case RAdvance(m) => AdvanceFront(r, m);
    case Sent =>
    case Got(_) =>
    case _ => OrderedKept(r, Do(r, c).ring);
  }

  /** What the other calls know stays true. */
  lemma KnowledgeKept(r: Ring, c: Call, other: Call)
    requires Do(r, c).Go? && Knows(r, other) && (c.Holds() ==> !other.Holds())
    ensures Knows(Do(r, c).ring, other)
  {
  }

  lemma StepShape(s: State, t: Turn)
    requires Next(s, t).Moved?
    ensures t.pid in s.calls
    ensures var c := s.calls[t.pid];
            var s' := Next(s, t).next;
            && s'.calls - {t.pid} == s.calls - {t.pid}
            && if c.Returned() then s'.ring == s.ring && Begins(s.ring, t.job) && s'.calls == s.calls[t.pid := t.job]
               else Do(s.ring, c).Go? && s' == State(Do(s.ring, c).ring, s.calls[t.pid := Do(s.ring, c).call])
  {
    assert Next(s, t).next.calls - {t.pid} == s.calls - {t.pid};
  }

  /** A call that has not done anything yet weighs as little as one that has returned. */
  lemma BeginWeighsNothing(r: Ring, c: Call, job: Call)
    requires c.Returned() && (job == Sent || Begins(r, job))
    ensures Share(job) == Share(c) && Knows(r, job)
  {
  }

  /** A call that has returned makes room for the next one, or for none. */
  lemma BeginKeeps(s: State, p: Pid, job: Call)
    requires Inv(s) && p in s.calls && s.calls[p].Returned() && (job == Sent || Begins(s.ring, job))
    ensures Inv(s.(calls := s.calls[p := job]))
  {
    hide Ordered, Balanced, Knows, SumsOf, Sums.Plus, Share;
    BeginWeighsNothing(s.ring, s.calls[p], job);
    SumsSplit(s.calls, p);
    SumsSplit(s.calls[p := job], p);
    assert s.calls[p := job] - {p} == s.calls - {p};
  }

  lemma CallKeeps(s: State, p: Pid)
    requires Inv(s) && p in s.calls && Do(s.ring, s.calls[p]).Go?
    ensures Inv(State(Do(s.ring, s.calls[p]).ring, s.calls[p := Do(s.ring, s.calls[p]).call]))
  {
    hide Do, Ordered, Balanced, Knows, SumsOf, Sums.Plus, Share;
    var e, others := Do(s.ring, s.calls[p]), SumsOf(s.calls - {p});
    var calls' := s.calls[p := e.call];
    SumsSplit(s.calls, p);
    SumsSplit(calls', p);
    assert calls' - {p} == s.calls - {p};
    BalancedStep(s.ring, s.calls[p], others);
    OrderedStep(s.ring, s.calls[p], others);
    forall q | q in calls' ensures Knows(e.ring, calls'[q]) {
      if q != p {
        if s.calls[p].Holds() { OneInside(s, p, q); }
        KnowledgeKept(s.ring, s.calls[p], s.calls[q]);
      }
    }
  }

  /** A call under way: it does not fault, sends find a free slot and receives a
      message, and it leaves the invariant and, but for the one index update, the
      contents as they are. */
  lemma CallStep(s: State, p: Pid)
    requires Inv(s) && p in s.calls && !s.calls[p].Returned()
    ensures !Do(s.ring, s.calls[p]).Crash?
    ensures Do(s.ring, s.calls[p]).Go? ==>
              var r, c := Do(s.ring, s.calls[p]).ring, s.calls[p];
              && Inv(State(r, s.calls[p := Do(s.ring, c).call]))
              && r.size == s.ring.size && r.cap == s.ring.cap
              && (c.SAdvance? ==> |Contents(s.ring)| < s.ring.cap)
              && if c.SAdvance? then Contents(r) == Contents(s.ring) + [c.msg]
                 else if c.RAdvance? then Contents(s.ring) == [c.msg] + Contents(r)
                 else Contents(r) == Contents(s.ring)
  {
    hide Do, Ordered, Balanced, Knows, SumsOf, Sums.Plus, Share, Contents;
    var others := SumsOf(s.calls - {p});
    SumsSplit(s.calls, p);
    CallProceeds(s.ring, s.calls[p], others);
    if Do(s.ring, s.calls[p]).Go? {
      CallKeeps(s, p);
      OrderedStep(s.ring, s.calls[p], others);
      RoomOrMessage(s.ring, s.calls[p], others);
      ContentsLength(s.ring);
    }
  }

  /** What a call under way can wait for. */
  lemma CallWaits(s: State, p: Pid)
    requires Inv(s) && p in s.calls && !s.calls[p].Returned()
    ensures var c := s.calls[p];
            Do(s.ring, c).Stay? <==> (c.SFull? && s.ring.full == 0) || (c == REmpty && s.ring.empty == 0)
                                     || ((c.SMutex? || c.RMutex?) && s.ring.mutex == 0)
  {
    hide Do, Ordered, Balanced, Knows, SumsOf, Sums.Plus, Share;
    SumsSplit(s.calls, p);
    CallProceeds(s.ring, s.calls[p], SumsOf(s.calls - {p}));
  }

  /** The same in terms of the messages and of the other calls: a send waits exactly when
      the messages, the slots reserved and those not yet released fill the ring, a receive
      exactly when every message is claimed or not yet announced, and either waits for the
      mutex exactly when some call is inside. A process between calls can begin a receive,
      or a send of a message of the right size, at any time. */
  lemma WaitsExactlyWhen(s: State, t: Turn)
    requires Inv(s) && t.pid in s.calls
    ensures Next(s, t).Blocked? <==>
              var z := SumsOf(s.calls);
              match s.calls[t.pid]
              case SFull(_) => |Contents(s.ring)| + z.reserved + z.unreleased == s.ring.cap
              case REmpty => |Contents(s.ring)| == z.claimed + z.unannounced
              case SMutex(_) => exists q :: q in s.calls && s.calls[q].Holds()
              case RMutex => exists q :: q in s.calls && s.calls[q].Holds()
              case Sent => t.job != REmpty && !(t.job.SFull? && |t.job.msg| == s.ring.size)
              case Got(_) => t.job != REmpty && !(t.job.SFull? && |t.job.msg| == s.ring.size)
              case _ => false
  {
    var p := t.pid;
    if !s.calls[p].Returned() {
      CallWaits(s, p);
      ContentsLength(s.ring);
      SomeoneWeighs(s.calls, Locked);
      hide Do, Ordered, Knows, Contents;
      if q :| q in s.calls && s.calls[q].Holds() { assert Locked(s.calls[q]) > 0; }
    }
  }

  /** Before its first step and after its last a call weighs nothing. */
  predicate AtRest(c: Call) { c.SFull? || c == REmpty || c.Returned() }

  /** Calls at rest weigh nothing together. */
  lemma RestSums(calls: map<Pid, Call>)
    requires forall p :: p in calls ==> AtRest(calls[p])
    ensures SumsOf(calls) == Sums(0, 0, 0, 0, 0)
  {
    forall p | p in calls
      ensures Locked(calls[p]) == Reserved(calls[p]) == Unannounced(calls[p]) == Claimed(calls[p]) == Unreleased(calls[p]) == 0
    {
      assert AtRest(calls[p]);
    }
    hide AtRest, Locked, Reserved, Unannounced, Claimed, Unreleased;
    TotalZero(calls, Locked);
    TotalZero(calls, Reserved);
    TotalZero(calls, Unannounced);
    TotalZero(calls, Claimed);
    TotalZero(calls, Unreleased);
  }

  /** With all calls at rest the semaphores count free slots and messages. */
  lemma QuietRing(s: State)
    requires Inv(s) && forall p :: p in s.calls ==> AtRest(s.calls[p])
    ensures s.ring.full + |Contents(s.ring)| == s.ring.cap && s.ring.empty == |Contents(s.ring)| && s.ring.mutex == 1
  {
    hide Ordered, Contents, SumsOf, Knows, AtRest;
    ContentsLength(s.ring);
    RestSums(s.calls);
  }

  /** Somebody holds a mutex that is taken. */
  lemma MutexHeld(s: State) returns (p: Pid)
    requires Inv(s) && s.ring.mutex == 0
    ensures p in s.calls && s.calls[p].Holds()
  {
    if forall q :: q in s.calls ==> !s.calls[q].Holds() {
      TotalZero(s.calls, Locked);
    }
    p :| p in s.calls && s.calls[p].Holds();
  }

  /** A message put in and not announced, or claimed and not taken out. */
  function Touched(c: Call): nat { Unannounced(c) + Claimed(c) }

  lemma HeldAtLeast(s: State, p: Pid)
    requires Inv(s) && p in s.calls
    ensures |Contents(s.ring)| >= Touched(s.calls[p])
  {
    ContentsLength(s.ring);
    TotalRemove(s.calls, Claimed, p);
    TotalRemove(s.calls, Unannounced, p);
  }

  lemma HeldForBoth(s: State, p: Pid, q: Pid)
    requires Inv(s) && p in s.calls && q in s.calls && p != q
    ensures |Contents(s.ring)| >= Touched(s.calls[p]) + Touched(s.calls[q])
  {
    ContentsLength(s.ring);
    TotalRemove(s.calls, Claimed, p);
    TotalRemove(s.calls, Unannounced, p);
    TotalRemove(s.calls - {p}, Claimed, q);
    TotalRemove(s.calls - {p}, Unannounced, q);
  }

  /** When there is less free or announced than there could be, somebody is under way. */
  lemma SomeoneUnderWay(s: State) returns (p: Pid)
    requires Inv(s)
    requires s.ring.full + |Contents(s.ring)| < s.ring.cap || s.ring.empty < |Contents(s.ring)|
    ensures p in s.calls && !AtRest(s.calls[p])
  {
    if forall q :: q in s.calls ==> AtRest(s.calls[q]) {
      QuietRing(s);
    }
    p :| p in s.calls && !AtRest(s.calls[p]);
  }

  lemma InvStep(s: State, t: Turn)
    requires Inv(s) && Next(s, t).Moved?
    ensures Inv(Next(s, t).next)
  {
    hide Inv, Do, Next;
    StepShape(s, t);
    if s.calls[t.pid].Returned() {
      BeginKeeps(s, t.pid, t.job);
    } else {
      CallKeeps(s, t.pid);
    }
  }

  lemma OneInside(s: State, p: Pid, q: Pid)
    requires Inv(s) && p in s.calls && q in s.calls && p != q && s.calls[p].Holds()
    ensures !s.calls[q].Holds()
  {
    TotalRemove(s.calls, Locked, p);
    TotalRemove(s.calls - {p}, Locked, q);
  }

  lemma InvInitial(s: State)
    requires Initial(s)
    ensures Inv(s)
  {
    FreshOrdered(s.ring);
    hide Ordered, SumsOf;
    RestSums(s.calls);
  }

  lemma {:induction false} InvRun(s: State, turns: seq<Turn>)
    requires Inv(s) && Run(s, turns).Moved?
    ensures Inv(Run(s, turns).next)
    decreases |turns|
  {
    hide Inv, Next;
    if turns == [] {
    } else {
      InvStep(s, turns[0]);
      InvRun(Next(s, turns[0]).next, turns[1..]);
    }
  }

  lemma {:induction false} NoFaultRun(s: State, turns: seq<Turn>)
    requires Inv(s)
    ensures !Run(s, turns).Fault?
    decreases |turns|
  {
    hide Inv, Do;
    if turns == [] {
    } else {
      NoFaultStep(s, turns[0]);
      if Next(s, turns[0]).Moved? {
        InvStep(s, turns[0]);
        NoFaultRun(Next(s, turns[0]).next, turns[1..]);
      }
    }
  }

  lemma NoFaultStep(s: State, t: Turn)
    requires Inv(s)
    ensures !Next(s, t).Fault?
  {
    if t.pid in s.calls && !s.calls[t.pid].Returned() {
      SumsSplit(s.calls, t.pid);
      CallProceeds(s.ring, s.calls[t.pid], SumsOf(s.calls - {t.pid}));
    }
  }

  /** In every run: no memcpy leaves the shared memory, the messages received are
      the messages sent, in order, up to the at most `cap` still in the ring, the
      indices are the two counts modulo `cap`, and free permits, item permits and
      calls in flight always make `cap`. */
  lemma FifoUnderAllInterleavings(s: State, turns: seq<Turn>)
    requires Initial(s)
    ensures !Run(s, turns).Fault?
    ensures Run(s, turns).Moved? ==>
              var r := Run(s, turns).next.ring;
              var z := SumsOf(Run(s, turns).next.calls);
              && Ordered(r)
              && r.full + r.empty + z.reserved + z.unannounced + z.claimed + z.unreleased == r.cap
  {
    InvInitial(s);
    NoFaultRun(s, turns);
    if Run(s, turns).Moved? {
      InvRun(s, turns);
    }
  }
}

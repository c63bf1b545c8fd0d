/** The bounded message queue in shared memory (msgq/custom_queue.cpp, MQueue):
    a ring buffer over flat bytes behind three semaphores, called by any number
    of senders and receivers at once.

    One step is one semaphore operation, one memcpy or one index update. */
module MQueue {
  type Msg = seq<char>

  /** Shared memory and semaphores, with the messages ever put in and taken out. */
  datatype Ring = Ring(
    cap: nat, size: nat,
    front: nat, rear: nat, data: seq<char>,
    full: nat, empty: nat, mutex: nat,
    sent: seq<Msg>, received: seq<Msg>)

  /** Where a process is inside `send` or `recv`; `Sent` and `Got` are the returns. */
  datatype Call =
    | SFull(msg: Msg) | SMutex(msg: Msg) | SCopy(msg: Msg) | SAdvance(msg: Msg) | SUnlock | SEmpty | Sent
    | REmpty | RMutex | RCopy | RAdvance(msg: Msg) | RUnlock(msg: Msg) | RFull(msg: Msg) | Got(msg: Msg)
  {
    predicate Returned() { Sent? || Got? }

    /** Between the wait and the post on the mutex. */
    predicate Holds() { SCopy? || SAdvance? || SUnlock? || RCopy? || RAdvance? || RUnlock? }
  }

  /** The bytes of slot `i`. */
  function Slot(data: seq<char>, size: nat, i: nat): Msg
    requires i * size + size <= |data|
  {
    data[i * size..i * size + size]
  }

  /** memcpy of one message to `offset`. */
  function Overwrite(data: seq<char>, offset: nat, msg: Msg): seq<char>
    requires offset + |msg| <= |data|
  {
    data[..offset] + msg + data[offset + |msg|..]
  }

  datatype Effect = Go(ring: Ring, call: Call) | Stay | Crash

  function Do(r: Ring, call: Call): Effect {
    match call
    case SFull(m) => if r.full == 0 then Stay else Go(r.(full := r.full - 1), SMutex(m))
    case SMutex(m) => if r.mutex == 0 then Stay else Go(r.(mutex := r.mutex - 1), SCopy(m))
    case SCopy(m) =>
      if |m| == r.size && r.rear * r.size + r.size <= |r.data|
      then Go(r.(data := Overwrite(r.data, r.rear * r.size, m)), SAdvance(m))
      else Crash
    case SAdvance(m) =>
      if r.cap == 0 then Crash
      else Go(r.(rear := (r.rear + 1) % r.cap, sent := r.sent + [m]), SUnlock)
    case SUnlock => Go(r.(mutex := r.mutex + 1), SEmpty)
    case SEmpty => Go(r.(empty := r.empty + 1), Sent)
    case REmpty => if r.empty == 0 then Stay else Go(r.(empty := r.empty - 1), RMutex)
    case RMutex => if r.mutex == 0 then Stay else Go(r.(mutex := r.mutex - 1), RCopy)
    case RCopy =>
      if r.front * r.size + r.size <= |r.data|
      then Go(r, RAdvance(Slot(r.data, r.size, r.front)))
      else Crash
    case RAdvance(m) =>
      if r.cap == 0 then Crash
      else Go(r.(front := (r.front + 1) % r.cap, received := r.received + [m]), RUnlock(m))
    case RUnlock(m) => Go(r.(mutex := r.mutex + 1), RFull(m))
    case RFull(m) => Go(r.(full := r.full + 1), Got(m))
    case Sent => Stay
    case Got(_) => Stay
  }

  /** The queue as `init_queue` leaves it. */
  ghost predicate Fresh(r: Ring) {
    && r.cap >= 1 && r.front == 0 && r.rear == 0 && |r.data| == r.cap * r.size
    && r.full == r.cap && r.empty == 0 && r.mutex == 1
    && r.sent == [] && r.received == []
  }
}

/** Any number of processes calling one queue. */
module MQueueSystem {
  import opened Processes
  import opened MQueue

  /** Any number of processes, each inside a call or between calls. */
  datatype State = State(ring: Ring, calls: map<Pid, Call>)

  datatype Outcome = Moved(next: State) | Blocked | Fault

  /** Process `pid` takes its next step; between calls it begins the call `job`. */
  datatype Turn = Turn(pid: Pid, job: Call)

  predicate Begins(r: Ring, job: Call) { job == REmpty || (job.SFull? && |job.msg| == r.size) }

  function Next(s: State, t: Turn): Outcome {
    if t.pid !in s.calls then Blocked
    else if s.calls[t.pid].Returned() then
      if Begins(s.ring, t.job) then Moved(s.(calls := s.calls[t.pid := t.job])) else Blocked
    else match Do(s.ring, s.calls[t.pid])
      case Go(r, c) => Moved(State(r, s.calls[t.pid := c]))
      case Stay => Blocked
      case Crash => Fault
  }

  function Run(s: State, turns: seq<Turn>): Outcome
    decreases |turns|
  {
    if turns == [] then Moved(s)
    else match Next(s, turns[0])
      case Moved(t) => Run(t, turns[1..])
      case Blocked => Blocked
      case Fault => Fault
  }

  ghost predicate Initial(s: State) {
    Fresh(s.ring) && forall p :: p in s.calls ==> s.calls[p].Returned()
  }
}

/** What holds of the ring buffer itself, whoever uses it. */
module RingBuffer {
  import opened Modular
  import opened MQueue

  /** The indices are the two counts modulo the capacity, and the ring holds, in
      order, the messages sent and not yet received. */
  ghost predicate Ordered(r: Ring) {
    && r.cap >= 1 && |r.data| == r.cap * r.size
    && r.received <= r.sent && |r.sent| - |r.received| <= r.cap
    && r.rear == |r.sent| % r.cap && r.front == |r.received| % r.cap
    && (forall k :: |r.received| <= k < |r.sent| ==> InSlot(r, k))
  }

  ghost predicate InSlot(r: Ring, k: nat)
    requires r.cap >= 1 && |r.data| == r.cap * r.size && k < |r.sent|
  {
    SlotFits(r.cap, r.size, k % r.cap);
    Slot(r.data, r.size, k % r.cap) == r.sent[k]
  }

  lemma SlotFits(cap: nat, size: nat, i: nat)
    requires i < cap
    ensures i * size + size <= cap * size
  {
    SlotsApart(size, i, cap);
  }

  /** Messages sent and not yet received. */
  ghost function Contents(r: Ring): seq<Msg> {
    if |r.received| <= |r.sent| then r.sent[|r.received|..] else []
  }

  lemma ContentsLength(r: Ring)
    requires Ordered(r)
    ensures |Contents(r)| == |r.sent| - |r.received|
  {
  }

  lemma SlotsApart(size: nat, i: nat, j: nat)
    requires i < j
    ensures i * size + size <= j * size
  {
    Distribute(i, j - i, size);
    Distribute(1, j - i - 1, size);
  }

  /** A memcpy into one slot changes that slot to the message and no other slot. */
  lemma OverwriteSlot(data: seq<char>, size: nat, i: nat, msg: Msg, j: nat)
    requires |msg| == size && i * size + size <= |data| && j * size + size <= |data|
    ensures var d := Overwrite(data, i * size, msg);
            && |d| == |data|
            && Slot(d, size, j) == if i == j then msg else Slot(data, size, j)
  {
    var d := Overwrite(data, i * size, msg);
    if i < j {
      SlotsApart(size, i, j);
    } else if j < i {
      SlotsApart(size, j, i);
    }
  }

  /** Where there is room, the memcpy of `send` stays inside the shared memory and
      leaves every unread message alone. */
  lemma CopyKeepsOrder(r: Ring, m: Msg)
    requires Ordered(r) && |m| == r.size && |r.sent| - |r.received| < r.cap
    ensures Do(r, SCopy(m)).Go?
    ensures var r' := Do(r, SCopy(m)).ring;
            Ordered(r') && Contents(r') == Contents(r) && r'.rear * r'.size + r'.size <= |r'.data|
            && Slot(r'.data, r'.size, r'.rear) == m
  {
    SlotFits(r.cap, r.size, r.rear);
    var r' := Do(r, SCopy(m)).ring;
    OverwriteSlot(r.data, r.size, r.rear, m, r.rear);
    forall k | |r.received| <= k < |r.sent| ensures InSlot(r', k) {
      assert InSlot(r, k);
      SlotFits(r.cap, r.size, k % r.cap);
      OverwriteSlot(r.data, r.size, r.rear, m, k % r.cap);
      DifferentRemainders(k, |r.sent|, r.cap);
    }
  }

  /** Advancing `rear` over a slot that holds the message appends it. */
  lemma AdvanceRear(r: Ring, m: Msg)
    requires Ordered(r) && |r.sent| - |r.received| < r.cap
    requires r.rear * r.size + r.size <= |r.data| && Slot(r.data, r.size, r.rear) == m
    ensures Do(r, SAdvance(m)).Go?
    ensures var r' := Do(r, SAdvance(m)).ring;
            Ordered(r') && Contents(r') == Contents(r) + [m]
  {
    RemainderNext(|r.sent|, r.cap);
    var r' := Do(r, SAdvance(m)).ring;
    forall k | |r'.received| <= k < |r'.sent| ensures InSlot(r', k) {
      if k < |r.sent| { assert InSlot(r, k); }
    }
  }

  /** The memcpy of `recv` reads the oldest message. */
  lemma CopyReadsOldest(r: Ring)
    requires Ordered(r) && |r.received| < |r.sent|
    ensures Do(r, RCopy) == Go(r, RAdvance(r.sent[|r.received|]))
  {
    SlotFits(r.cap, r.size, r.front);
    assert InSlot(r, |r.received|);
  }

  /** Advancing `front` removes it. */
  lemma AdvanceFront(r: Ring, m: Msg)
    requires Ordered(r) && |r.received| < |r.sent| && m == r.sent[|r.received|]
    ensures Do(r, RAdvance(m)).Go?
    ensures var r' := Do(r, RAdvance(m)).ring;
            Ordered(r') && Contents(r) == [m] + Contents(r')
  {
    RemainderNext(|r.received|, r.cap);
    var r' := Do(r, RAdvance(m)).ring;
    forall k | |r'.received| <= k < |r'.sent| ensures InSlot(r', k) {
      assert InSlot(r, k);
    }
  }

  /** Semaphore operations do not touch the ring. */
  lemma OrderedKept(r: Ring, r': Ring)
    requires Ordered(r) && r' == r.(full := r'.full, empty := r'.empty, mutex := r'.mutex)
    ensures Ordered(r') && Contents(r') == Contents(r)
  {
    forall k | |r'.received| <= k < |r'.sent| ensures InSlot(r', k) {
      assert InSlot(r, k);
    }
  }

  lemma FreshOrdered(r: Ring)
    requires Fresh(r)
    ensures Ordered(r)
  {
  }
}

/** The queue in shared memory as it runs: `send` and `recv` on an array of bytes. */
module MQueueMemory {
  import opened Descriptors
  import opened MQueue
  import opened RingBuffer
  import F = MQueueFifo

  class SharedQueue {
    const cap: nat
    const size: nat
    const data: array<char>
    var front: nat
    var rear: nat
    var full: nat
    var empty: nat
    var mutex: nat
    ghost var sent: seq<Msg>
    ghost var received: seq<Msg>

    ghost function View(): Ring
      reads this, data
    {
      Ring(cap, size, front, rear, data[..], full, empty, mutex, sent, received)
    }

    /** init_queue() for a queue that does not exist yet. */
    constructor (cap: nat, size: nat)
      requires cap >= 1
      ensures Fresh(View()) && View().cap == cap && View().size == size && fresh(data)
    {
      this.cap := cap;
      this.size := size;
      data := new char[cap * size](_ => '\0');
      front, rear := 0, 0;
      full, empty, mutex := cap, 0, 1;
      sent, received := [], [];
    }

    /** The next step of a call. */
    method Step(call: Call) returns (moved: bool, next: Call)
      modifies this, data
      ensures match Do(old(View()), call)
        case Go(r, c) => moved && next == c && View() == r
        case Stay => !moved && View() == old(View())
        case Crash => !moved && View() == old(View())
    {
      match call
      case Sent => return false, call;
      case Got(_) => return false, call;
      case SCopy(m) => moved, next := CopyIn(m);
      case SFull(_) => moved, next := SendStep(call);
      case SMutex(_) => moved, next := SendStep(call);
      case SAdvance(_) => moved, next := SendStep(call);
      case SUnlock => moved, next := SendStep(call);
      case SEmpty => moved, next := SendStep(call);
      case _ => moved, next := RecvStep(call);
    }

    method CopyIn(m: Msg) returns (moved: bool, next: Call)
      modifies data
      ensures match Do(old(View()), SCopy(m))
        case Go(r, c) => moved && next == c && View() == r
        case Stay => !moved && View() == old(View())
        case Crash => !moved && View() == old(View())
    {
      if |m| != size || rear * size + size > data.Length { return false, SCopy(m); }
      Copy(data, rear * size, m);
      return true, SAdvance(m);
    }

    method SendStep(call: Call) returns (moved: bool, next: Call)
      requires call.SFull? || call.SMutex? || call.SAdvance? || call.SUnlock? || call.SEmpty?
      modifies this
      ensures match Do(old(View()), call)
        case Go(r, c) => moved && next == c && View() == r
        case Stay => !moved && View() == old(View())
        case Crash => !moved && View() == old(View())
    {
      moved, next := true, call;
      match call
      case SFull(m) =>
        if full == 0 { return false, call; }
        full := full - 1;
        next := SMutex(m);
      case SMutex(m) =>
        if mutex == 0 { return false, call; }
        mutex := mutex - 1;
        next := SCopy(m);
      case SAdvance(m) =>
        if cap == 0 { return false, call; }
        rear := (rear + 1) % cap;
        sent := sent + [m];
        next := SUnlock;
      case SUnlock =>
        mutex := mutex + 1;
        next := SEmpty;
      case SEmpty =>
        empty := empty + 1;
        next := Sent;
    }

    method RecvStep(call: Call) returns (moved: bool, next: Call)
      requires call.REmpty? || call.RMutex? || call.RCopy? || call.RAdvance? || call.RUnlock? || call.RFull?
      modifies this
      ensures match Do(old(View()), call)
        case Go(r, c) => moved && next == c && View() == r
        case Stay => !moved && View() == old(View())
        case Crash => !moved && View() == old(View())
    {
      moved, next := true, call;
      match call
      case REmpty =>
        if empty == 0 { return false, call; }
        empty := empty - 1;
        next := RMutex;
      case RMutex =>
        if mutex == 0 { return false, call; }
        mutex := mutex - 1;
        next := RCopy;
      case RCopy =>
        if front * size + size > data.Length { return false, call; }
        next := RAdvance(data[front * size..front * size + size]);
      case RAdvance(m) =>
        if cap == 0 { return false, call; }
        front := (front + 1) % cap;
        received := received + [m];
        next := RUnlock(m);
      case RUnlock(m) =>
        mutex := mutex + 1;
        next := RFull(m);
      case RFull(m) =>
        full := full + 1;
        next := Got(m);
    }

    /** `send` when no other call interferes and there is a free slot. */
    method Send(m: Msg)
      requires Settled(View()) && |m| == size && |Contents(View())| < cap
      modifies this, data
      ensures Settled(View())
      ensures Contents(View()) == old(Contents(View())) + [m] && received == old(received)
    {
      hide Ordered, F.Balanced, Contents, Do;
      ghost var r := View();
      FreeSlots(r);
      SendEffects(r, m);
      full := full - 1;
      mutex := mutex - 1;
      var moved, next := CopyIn(m);
      moved, next := SendStep(SAdvance(m));
      mutex := mutex + 1;
      empty := empty + 1;
    }

    /** `recv` when no other call interferes and there is a message. */
    method Recv() returns (m: Msg)
      requires Settled(View()) && Contents(View()) != []
      modifies this
      ensures Settled(View())
      ensures old(Contents(View())) == [m] + Contents(View()) && sent == old(sent) && data[..] == old(data[..])
    {
      hide Ordered, F.Balanced, Contents, Do;
      ghost var r := View();
      FreeSlots(r);
      ReceiveEffects(r);
      empty := empty - 1;
      mutex := mutex - 1;
      var moved, next := RecvStep(RCopy);
      m := next.msg;
      moved, next := RecvStep(RAdvance(m));
      mutex := mutex + 1;
      full := full + 1;
    }
  }

  const NOBODY := F.Sums(0, 0, 0, 0, 0)

  /** No call is in progress. */
  ghost predicate Settled(r: Ring) { Ordered(r) && F.Balanced(r, NOBODY) }

  lemma FreeSlots(r: Ring)
    requires Settled(r)
    ensures r.full + |Contents(r)| == r.cap && r.empty == |Contents(r)| && r.mutex == 1
  {
    ContentsLength(r);
  }

  /** The ring while one call holds a permit and the mutex. */
  function Taken(r: Ring, full: nat, empty: nat): Ring { r.(full := full, empty := empty, mutex := 0) }

  lemma ContentsCount(r: Ring, full: nat, empty: nat)
    requires Ordered(r) && full + |Contents(r)| == r.cap && empty == |Contents(r)|
    ensures Settled(r.(full := full, empty := empty, mutex := 1))
    ensures Contents(r.(full := full, empty := empty, mutex := 1)) == Contents(r)
  {
    ContentsLength(r);
    OrderedKept(r, r.(full := full, empty := empty, mutex := 1));
  }

  /** The two memory steps of an undisturbed `send`, and where they lead. */
  lemma SendEffects(r: Ring, m: Msg)
    requires Settled(r) && |m| == r.size && |Contents(r)| < r.cap && r.full >= 1
    ensures var r1 := Taken(r, r.full - 1, r.empty);
            && Do(r1, SCopy(m)).Go? && Do(r1, SCopy(m)).call == SAdvance(m)
            && var r2 := Do(r1, SCopy(m)).ring;
               && Do(r2, SAdvance(m)).Go?
               && var r3 := Do(r2, SAdvance(m)).ring;
                  && r3.full == r.full - 1 && r3.empty == r.empty && r3.mutex == 0 && r3.received == r.received
                  && Settled(r3.(empty := r.empty + 1, mutex := 1))
                  && Contents(r3.(empty := r.empty + 1, mutex := 1)) == Contents(r) + [m]
  {
    hide Ordered, F.Balanced, Contents;
    FreeSlots(r);
    var r1 := Taken(r, r.full - 1, r.empty);
    OrderedKept(r, r1);
    ContentsLength(r1);
    CopyKeepsOrder(r1, m);
    var r2 := Do(r1, SCopy(m)).ring;
    ContentsLength(r2);
    AdvanceRear(r2, m);
    var r3 := Do(r2, SAdvance(m)).ring;
    ContentsCount(r3, r.full - 1, r.empty + 1);
  }

  lemma ReceiveEffects(r: Ring)
    requires Settled(r) && Contents(r) != [] && r.empty >= 1
    ensures var r1 := Taken(r, r.full, r.empty - 1);
            && Do(r1, RCopy).Go? && Do(r1, RCopy).call.RAdvance? && Do(r1, RCopy).ring == r1
            && var m := Do(r1, RCopy).call.msg;
               && Do(r1, RAdvance(m)).Go?
               && var r3 := Do(r1, RAdvance(m)).ring;
                  && r3.full == r.full && r3.empty == r.empty - 1 && r3.mutex == 0
                  && r3.sent == r.sent && r3.data == r.data
                  && Settled(r3.(full := r.full + 1, mutex := 1))
                  && Contents(r) == [m] + Contents(r3.(full := r.full + 1, mutex := 1))
  {
    hide Ordered, F.Balanced, Contents;
    FreeSlots(r);
    var r1 := Taken(r, r.full, r.empty - 1);
    OrderedKept(r, r1);
    ContentsLength(r1);
    CopyReadsOldest(r1);
    var m := Do(r1, RCopy).call.msg;
    AdvanceFront(r1, m);
    var r3 := Do(r1, RAdvance(m)).ring;
    ContentsCount(r3, r.full + 1, r.empty - 1);
  }
}

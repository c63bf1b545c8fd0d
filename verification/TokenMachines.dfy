/** The token programs as they run over the queues of msgq/custom_queue.cpp: three
    queues in shared memory, and workers that overwrite their buffers and indices. */
module TokenSystemMemory {
  import opened Processes
  import opened Numerals
  import opened MQueue
  import opened MQueueMemory
  import opened TokenProgram
  import opened TokenText
  import opened TokenSystem

  class Machine {
    const producers: SharedQueue
    const crate: SharedQueue
    const consumers: SharedQueue
    var workers: map<Pid, Worker>
    var printed: seq<Printed>

    ghost predicate Apart() {
      && producers != crate && producers != consumers && crate != consumers
      && producers.data != crate.data && producers.data != consumers.data && crate.data != consumers.data
    }

    ghost function Owned(): set<object> {
      {producers, crate, consumers, producers.data, crate.data, consumers.data}
    }

    ghost function View(): World
      reads this, Owned()
    {
      World(Rings(producers.View(), crate.View(), consumers.View()), workers, printed)
    }

    constructor (cap: nat, workers: map<Pid, Worker>)
      requires cap >= 1
      ensures Apart() && fresh(Owned())
      ensures View().workers == workers && View().printed == []
      ensures forall name :: Fresh(View().rings.Get(name)) && View().rings.Get(name).cap == cap
                             && View().rings.Get(name).size == 30
    {
      producers := new SharedQueue(cap, MAX_MSG_SIZE);
      crate := new SharedQueue(cap, MAX_MSG_SIZE);
      consumers := new SharedQueue(cap, MAX_MSG_SIZE);
      this.workers := workers;
      printed := [];
    }

    function Queue(name: Name): SharedQueue {
      match name case Producers => producers case Crate => crate case Consumers => consumers
    }

    /** A step inside a queue call; the other queues are not touched. */
    method CallStep(name: Name, call: Call) returns (moved: bool, next: Call)
      requires Apart()
      modifies Queue(name), Queue(name).data
      ensures match Do(old(View()).rings.Get(name), call)
        case Go(r, c) => moved && next == c && View().rings == old(View()).rings.Set(name, r)
        case Stay => !moved && View().rings == old(View()).rings
        case Crash => !moved && View().rings == old(View()).rings
    {
      hide Do;
      moved, next := Queue(name).Step(call);
    }

    /** The step that worker `p` takes on its own: true when it could. */
    method Step(p: Pid) returns (moved: bool)
      requires Apart()
      modifies this, Owned()
      ensures match TokenSystem.Next(old(View()), p)
        case Moved(w) => moved && View() == w
        case Blocked => !moved && View() == old(View())
        case Fault => !moved && workers == old(workers) && printed == old(printed)
    {
      hide Do, Start, Continue, CString, AfterSend, Rings.Get, Rings.Set, Wants;
      if p !in workers { return false; }
      var x := workers[p];
      var request := Wants(p, x.proc);
      if request.OutOfRange? { return false; }
      var name := if request.Receive? then request.from else request.to;
      var call;
      moved, call := CallStep(name, x.call);
      if !moved { return; }
      var started, lines := Ready(x.(call := call)), printed;
      match call {
        case Sent => started := Start(p, AfterSend(x.proc), x.buffer);
        case Got(b) =>
          started := Continue(p, x.proc, b);
          if x.proc.TakeItem? { lines := printed + [Printed(p, CString(b))]; }
        case _ =>
      }
      if started.Overrun? { return false; }
      workers, printed := workers[p := started.worker], lines;
    }
  }
}

/** msgq/v_msgq.cpp as it runs: one queue, messages appended and taken out by type. */
module TypedQueueMemory {
  import opened Processes
  import opened TokenProgram
  import opened TypedQueue

  /** A message that cannot be read has been taken out; a missing name changes nothing. */
  function AfterFault(s: State, p: Pid): seq<Typed>
    requires Next(s, p).Fault?
  {
    match Wants(p, s.procs[p])
    case Receive(from) => Without(s.queue, FirstOf(s.queue, KindOf(from)))
    case _ => s.queue
  }

  class Machine {
    const bytes: nat
    var queue: seq<Typed>
    var procs: map<Pid, Proc>
    var delivered: seq<Delivery>

    ghost function View(): State
      reads this
    {
      State(bytes / TEXT_SIZE, queue, procs, delivered)
    }

    /** A queue that the kernel lets hold `bytes` bytes of text. */
    constructor (bytes: nat, procs: map<Pid, Proc>)
      ensures View() == State(bytes / 30, [], procs, [])
    {
      this.bytes := bytes;
      queue, delivered := [], [];
      this.procs := procs;
    }

    method MsgSnd(kind: nat, m: Message) returns (ok: bool)
      modifies this`queue
      ensures ok <==> |old(queue)| < bytes / 30
      ensures queue == if ok then old(queue) + [Typed(kind, m)] else old(queue)
    {
      RoomInBytes(bytes, |queue|);
      ok := |queue| * TEXT_SIZE + TEXT_SIZE <= bytes;
      if ok { queue := queue + [Typed(kind, m)]; }
    }

    method MsgRcv(kind: nat) returns (ok: bool, m: Message)
      modifies this`queue
      ensures var i := FirstOf(old(queue), kind);
              && (ok <==> i < |old(queue)|)
              && (ok ==> m == old(queue)[i].msg && queue == Without(old(queue), i))
              && (!ok ==> queue == old(queue))
    {
      var i := FirstOf(queue, kind);
      ok := i < |queue|;
      m := Handover(0);
      if ok {
        m := queue[i].msg;
        queue := Without(queue, i);
      }
    }

    /** The step of process `p`. */
    method Step(p: Pid) returns (moved: bool)
      modifies this
      ensures match Next(old(View()), p)
        case Moved(t) => moved && View() == t
        case Blocked => !moved && View() == old(View())
        case Fault => !moved && procs == old(procs) && delivered == old(delivered)
                      && queue == AfterFault(old(View()), p)
    {
      if p !in procs { return false; }
      var proc := procs[p];
      match Wants(p, proc)
      case Send(to, m) =>
        moved := MsgSnd(KindOf(to), m);
        if moved { procs := procs[p := AfterSend(proc)]; }
      case Receive(from) =>
        var m;
        moved, m := MsgRcv(KindOf(from));
        if moved {
          match AfterReceive(proc, m)
          case To(next) =>
            delivered := Log(delivered, p, proc, m);
            procs := procs[p := next];
          case Unreadable => moved := false;
        }
      case OutOfRange => moved := false;
    }
  }
}

/** msgq/main.cpp as it runs: three priority queues and a priority per process. */
module PriorityQueuesMemory {
  import opened Processes
  import opened TokenProgram
  import opened PriorityQueues

  /** A message that cannot be read has been taken out; a missing name changes nothing. */
  function AfterFault(s: State, p: Pid): Queues
    requires Next(s, p).Fault?
  {
    match Wants(p, s.members[p].proc)
    case Receive(from) =>
      var q := s.queues.Get(from);
      var i := Best(q);
      s.queues.Set(from, q[..i] + q[i + 1..])
    case _ => s.queues
  }

  class Machine {
    const maxmsg: nat
    var queues: Queues
    var members: map<Pid, Member>
    var delivered: seq<Delivery>

    ghost function View(): State
      reads this
    {
      State(maxmsg, queues, members, delivered)
    }

    constructor (maxmsg: nat, members: map<Pid, Member>)
      ensures View() == State(maxmsg, Queues([], [], []), members, [])
    {
      this.maxmsg := maxmsg;
      queues := Queues([], [], []);
      this.members := members;
      delivered := [];
    }

    method MqSend(name: Name, m: Message, priority: nat) returns (ok: bool)
      modifies this`queues
      ensures ok <==> |old(queues).Get(name)| < maxmsg
      ensures queues == if ok then old(queues).Set(name, old(queues).Get(name) + [Ranked(priority, m)]) else old(queues)
    {
      ok := |queues.Get(name)| < maxmsg;
      if ok { queues := queues.Set(name, queues.Get(name) + [Ranked(priority, m)]); }
    }

    method MqReceive(name: Name) returns (ok: bool, m: Message, priority: nat)
      modifies this`queues
      ensures ok <==> old(queues).Get(name) != []
      ensures !ok ==> queues == old(queues)
      ensures ok ==> var q := old(queues).Get(name);
                     var i := Best(q);
                     m == q[i].msg && priority == q[i].priority && queues == old(queues).Set(name, q[..i] + q[i + 1..])
    {
      var q := queues.Get(name);
      ok, m, priority := q != [], Handover(0), 0;
      if ok {
        var i := Best(q);
        m, priority := q[i].msg, q[i].priority;
        queues := queues.Set(name, q[..i] + q[i + 1..]);
      }
    }

    /** The step of process `p`. */
    method Step(p: Pid) returns (moved: bool)
      modifies this
      ensures match Next(old(View()), p)
        case Moved(t) => moved && View() == t
        case Blocked => !moved && View() == old(View())
        case Fault => !moved && members == old(members) && delivered == old(delivered)
                      && queues == AfterFault(old(View()), p)
    {
      if p !in members { return false; }
      var member := members[p];
      match Wants(p, member.proc)
      case Send(to, m) =>
        moved := MqSend(to, m, SendPriority(member));
        if moved { members := members[p := member.(proc := AfterSend(member.proc))]; }
      case Receive(from) =>
        var m, priority;
        moved, m, priority := MqReceive(from);
        if moved {
          match AfterReceive(member.proc, m)
          case To(next) =>
            delivered := Log(delivered, p, member.proc, m);
            members := members[p := Member(next, priority)];
          case Unreadable => moved := false;
        }
      case OutOfRange => moved := false;
    }
  }
}

/** How the whole system, at any moment of any run, stands for a state of the token
    protocol over plain queues: a send takes effect when it advances `rear`, a receive
    when it advances `front`. Any number of tokens and of calls may be under way. */
module TokenSystemLink {
  import opened Processes
  import opened Numerals
  import opened MQueue
  import opened RingBuffer
  import F = MQueueFifo
  import Q = MQueueSystem
  import opened TokenProgram
  import opened TokenText
  import opened TokenSystem
  import P = TokenProtocol

  // ---- queues ----

  predicate Nameable(m: Message) { m.Item? ==> m.index < |ITEM_NAMES| }

  /** The bytes in a ring, one message buffer per message. */
  ghost predicate Carried(buffers: seq<Msg>, q: seq<Message>) {
    && |buffers| == |q|
    && forall i :: 0 <= i < |q| ==> Nameable(q[i]) && Carries(buffers[i], q[i])
  }

  /** The queue that a request is for. */
  function Target(request: Request): Name {
    match request case Receive(from) => from case Send(to, _) => to case OutOfRange => Crate
  }

  /** The call that a worker is in on a queue; Sent stands for none. */
  function CallOn(p: Pid, x: Worker, name: Name): Call {
    if Target(Wants(p, x.proc)) == name then x.call else Sent
  }

  function CallsOn(workers: map<Pid, Worker>, name: Name): map<Pid, Call> {
    map p | p in workers :: CallOn(p, workers[p], name)
  }

  ghost predicate QueueFits(r: Ring, calls: map<Pid, Call>, bound: nat, q: seq<Message>) {
    F.Inv(Q.State(r, calls)) && r.cap == bound && r.size == MAX_MSG_SIZE && Carried(Contents(r), q)
  }

  // ---- workers ----

  /** A worker and the program point of the protocol that it stands for. */
  ghost predicate WorkerFits(p: Pid, x: Worker, proc: Proc) {
    && p < Power10(10) && |x.buffer| == MAX_MSG_SIZE
    && match Wants(p, x.proc)
       case Send(_, m) => Sending(x, m, proc)
       case Receive(_) => Receiving(p, x, proc)
       case OutOfRange => false
  }

  predicate Sending(x: Worker, m: Message, proc: Proc) {
    if x.call.SUnlock? || x.call.SEmpty? then proc == AfterSend(x.proc)
    else
      && (x.call.SFull? || x.call.SMutex? || x.call.SCopy? || x.call.SAdvance?)
      && Nameable(m) && Carries(x.call.msg, m) && proc == x.proc
  }

  ghost predicate Receiving(p: Pid, x: Worker, proc: Proc) {
    if x.call.RUnlock? || x.call.RFull? then
      |x.call.msg| == MAX_MSG_SIZE && Continue(p, x.proc, x.call.msg) == Start(p, proc, x.call.msg)
    else (x.call.REmpty? || x.call.RMutex? || x.call.RCopy? || x.call.RAdvance?) && proc == x.proc
  }

  /** The state `a` of the protocol is what the world stands for. */
  ghost predicate Linked(w: World, a: P.State) {
    && w.workers.Keys == a.procs.Keys
    && (forall p :: p in a.procs ==> WorkerFits(p, w.workers[p], a.procs[p]))
    && (forall name :: QueueFits(w.rings.Get(name), CallsOn(w.workers, name), a.bound, a.queues.Get(name)))
  }

  // ---- what is printed ----

  /** What reader `p` has printed, and what the protocol has delivered to it. */
  function PrintedBy(printed: seq<Printed>, p: Pid): seq<string> {
    if printed == [] then []
    else
      var last := printed[|printed| - 1];
      PrintedBy(printed[..|printed| - 1], p) + if last.reader == p then [last.text] else []
  }

  function ItemText(m: Message): string { if Nameable(m) then Text(m) else "" }

  function DeliveredTo(log: seq<Delivery>, p: Pid): seq<string> {
    if log == [] then []
    else
      var last := log[|log| - 1];
      DeliveredTo(log[..|log| - 1], p) + if last.reader == p then [ItemText(last.item)] else []
  }

  /** An item taken out of the crate and not yet printed. */
  function InHand(x: Worker): seq<string> {
    if x.proc.TakeItem? && (x.call.RUnlock? || x.call.RFull?) then [CString(x.call.msg)] else []
  }

  ghost predicate Printing(w: World, a: P.State) {
    forall p :: p in w.workers ==> PrintedBy(w.printed, p) + InHand(w.workers[p]) == DeliveredTo(a.delivered, p)
  }

  // ---- the queues of the others ----

  lemma GetSet(rings: Rings, name: Name, r: Ring, other: Name)
    ensures rings.Set(name, r).Get(other) == if other == name then r else rings.Get(other)
  {
  }

  lemma GetSetQueues(queues: P.Queues, name: Name, q: seq<Message>, other: Name)
    ensures queues.Set(name, q).Get(other) == if other == name then q else queues.Get(other)
  {
  }

  lemma CallsUpdate(workers: map<Pid, Worker>, p: Pid, x: Worker, name: Name)
    requires p in workers
    ensures CallsOn(workers[p := x], name) == CallsOn(workers, name)[p := CallOn(p, x, name)]
    ensures CallsOn(workers, name)[p := CallOn(p, workers[p], name)] == CallsOn(workers, name)
  {
  }

  // ---- a step inside a call ----

  /** The queue that `p` is at work on, after the step. */
  lemma InsideQueue(w: World, a: P.State, p: Pid, r: Ring, c: Call)
    requires Linked(w, a) && p in w.workers
    requires var name := Target(Wants(p, w.workers[p].proc)); Do(w.rings.Get(name), w.workers[p].call) == Go(r, c)
    ensures var name := Target(Wants(p, w.workers[p].proc));
            var x, before := w.workers[p], w.rings.Get(name);
            && F.Inv(Q.State(r, CallsOn(w.workers, name)[p := c])) && r.cap == a.bound && r.size == MAX_MSG_SIZE
            && !x.call.Returned()
            && (x.call.SAdvance? ==> |a.queues.Get(name)| < a.bound)
            && (if x.call.SAdvance? then Contents(r) == Contents(before) + [x.call.msg]
                else if x.call.RAdvance? then Contents(before) == [x.call.msg] + Contents(r)
                else Contents(r) == Contents(before))
            && Carried(Contents(before), a.queues.Get(name))
  {
    hide Do, F.Inv, Carries, Nameable, Contents, Wants, Target, Sending, Receiving;
    var name, x := Target(Wants(p, w.workers[p].proc)), w.workers[p];
    assert QueueFits(w.rings.Get(name), CallsOn(w.workers, name), a.bound, a.queues.Get(name));
    StillCalling(p, x, a.procs[p]);
    F.CallStep(Q.State(w.rings.Get(name), CallsOn(w.workers, name)), p);
  }

  lemma StillCalling(p: Pid, x: Worker, proc: Proc)
    requires WorkerFits(p, x, proc)
    ensures !x.call.Returned() && Wants(p, x.proc) != OutOfRange
  {
    hide Carries, Continue, Start, Power10;
  }

  /** `p` has gone on to `x`, the protocol to `b`; only the queue `name` has changed. */
  lemma LinkedAgain(w: World, v: World, a: P.State, b: P.State, p: Pid, name: Name, r: Ring, c: Call, q: seq<Message>, x: Worker)
    requires Linked(w, a) && p in w.workers && name == Target(Wants(p, w.workers[p].proc))
    requires v.rings == w.rings.Set(name, r) && v.workers == w.workers[p := x]
    requires F.Inv(Q.State(r, CallsOn(w.workers, name)[p := c])) && r.cap == a.bound && r.size == MAX_MSG_SIZE
    requires Carried(Contents(r), q)
    requires b.queues == a.queues.Set(name, q) && b.bound == a.bound
    requires p in b.procs && b.procs == a.procs[p := b.procs[p]] && WorkerFits(p, x, b.procs[p])
    requires (x.proc == w.workers[p].proc && x.call == c)
             || (c.Returned() && (x.call == REmpty || (x.call.SFull? && |x.call.msg| == MAX_MSG_SIZE)))
    ensures Linked(v, b)
  {
    hide F.Inv, Contents, Carried, Wants, Target, Sending, Receiving, WorkerFits, QueueFits, CallsOn, CallOn;
    forall other ensures QueueFits(v.rings.Get(other), CallsOn(v.workers, other), b.bound, b.queues.Get(other)) {
      GetSet(w.rings, name, r, other);
      GetSetQueues(a.queues, name, q, other);
      CallsUpdate(w.workers, p, x, other);
      assert QueueFits(w.rings.Get(other), CallsOn(w.workers, other), a.bound, a.queues.Get(other));
      if other == name {
        ThisQueue(w.workers, p, name, r, c, a.bound, q, x);
      } else {
        OtherQueue(w.workers, p, other, w.rings.Get(other), c, a.bound, a.queues.Get(other), x);
      }
    }
  }

  /** The queue of the call of `p`, when `p` goes on to `x`. */
  lemma ThisQueue(workers: map<Pid, Worker>, p: Pid, name: Name, r: Ring, c: Call, bound: nat, q: seq<Message>, x: Worker)
    requires p in workers && name == Target(Wants(p, workers[p].proc))
    requires F.Inv(Q.State(r, CallsOn(workers, name)[p := c])) && r.cap == bound && r.size == MAX_MSG_SIZE
    requires Carried(Contents(r), q)
    requires (x.proc == workers[p].proc && x.call == c)
             || (c.Returned() && (x.call == REmpty || (x.call.SFull? && |x.call.msg| == MAX_MSG_SIZE)))
    ensures QueueFits(r, CallsOn(workers, name)[p := CallOn(p, x, name)], bound, q)
  {
    hide F.Inv, Contents, Carried, Wants, Target;
    var calls: map<Pid, Call> := CallsOn(workers, name);
    if x.proc == workers[p].proc && x.call == c {
      assert CallOn(p, x, name) == c;
    } else {
      F.BeginKeeps(Q.State(r, calls[p := c]), p, CallOn(p, x, name));
      assert calls[p := c][p := CallOn(p, x, name)] == calls[p := CallOn(p, x, name)];
    }
  }

  /** Another queue. */
  lemma OtherQueue(workers: map<Pid, Worker>, p: Pid, name: Name, r: Ring, c: Call, bound: nat, q: seq<Message>, x: Worker)
    requires p in workers && name != Target(Wants(p, workers[p].proc))
    requires QueueFits(r, CallsOn(workers, name), bound, q)
    requires (x.proc == workers[p].proc && x.call == c)
             || (c.Returned() && (x.call == REmpty || (x.call.SFull? && |x.call.msg| == MAX_MSG_SIZE)))
    ensures QueueFits(r, CallsOn(workers, name)[p := CallOn(p, x, name)], bound, q)
  {
    hide F.Inv, Contents, Carried, Wants, Target;
    var calls: map<Pid, Call> := CallsOn(workers, name);
    assert calls[p] == Sent;
    if x.proc == workers[p].proc && x.call == c {
      assert calls[p := CallOn(p, x, name)] == calls;
    } else {
      F.BeginKeeps(Q.State(r, calls), p, CallOn(p, x, name));
    }
  }

  /** A step inside a call that changes neither index: invisible to the protocol. */
  lemma QuietStep(w: World, a: P.State, p: Pid, r: Ring, c: Call)
    requires Linked(w, a) && p in w.workers
    requires var name := Target(Wants(p, w.workers[p].proc)); Do(w.rings.Get(name), w.workers[p].call) == Go(r, c)
    requires !c.Returned() && !w.workers[p].call.SAdvance? && !w.workers[p].call.RAdvance?
    ensures var name := Target(Wants(p, w.workers[p].proc));
            Linked(w.(rings := w.rings.Set(name, r), workers := w.workers[p := w.workers[p].(call := c)]), a)
  {
    hide Do, F.Inv, Contents, Carried, Carries, Wants, Target, WorkerFits;
    var name, x := Target(Wants(p, w.workers[p].proc)), w.workers[p];
    InsideQueue(w, a, p, r, c);
    assert WorkerFits(p, x, a.procs[p]);
    QuietWorker(p, x, a.procs[p], w.rings.Get(name), r, c);
    SameQueue(a.queues, name);
    var v := w.(rings := w.rings.Set(name, r), workers := w.workers[p := x.(call := c)]);
    LinkedAgain(w, v, a, a, p, name, r, c, a.queues.Get(name), x.(call := c));
  }

  lemma SameQueue(queues: P.Queues, name: Name)
    ensures queues.Set(name, queues.Get(name)) == queues
  {
  }

  lemma QuietWorker(p: Pid, x: Worker, proc: Proc, before: Ring, r: Ring, c: Call)
    requires WorkerFits(p, x, proc) && Do(before, x.call) == Go(r, c)
    requires !c.Returned() && !x.call.SAdvance? && !x.call.RAdvance?
    ensures WorkerFits(p, x.(call := c), proc)
  {
    hide Carries, Nameable, Continue, Start, Power10, AfterSend;
  }

  // ---- the steps at which calls take effect ----

  lemma SendTakesEffect(w: World, a: P.State, p: Pid, r: Ring, c: Call) returns (b: P.State)
    requires Linked(w, a) && p in w.workers && w.workers[p].call.SAdvance?
    requires var name := Target(Wants(p, w.workers[p].proc)); Do(w.rings.Get(name), w.workers[p].call) == Go(r, c)
    ensures var name := Target(Wants(p, w.workers[p].proc));
            && c == SUnlock && P.Next(a, p) == P.Moved(b) && b.delivered == a.delivered
            && Linked(w.(rings := w.rings.Set(name, r), workers := w.workers[p := w.workers[p].(call := c)]), b)
  {
    hide F.Inv, Contents, Carries, Nameable, Power10;
    var name, x := Target(Wants(p, w.workers[p].proc)), w.workers[p];
    InsideQueue(w, a, p, r, c);
    assert WorkerFits(p, x, a.procs[p]);
    var m := SentMessage(p, x, a.procs[p]);
    var q := a.queues.Get(name) + [m];
    b := a.(queues := a.queues.Set(name, q), procs := a.procs[p := AfterSend(x.proc)]);
    var v := w.(rings := w.rings.Set(name, r), workers := w.workers[p := x.(call := c)]);
    hide Do, Wants, Target, Linked;
    LinkedAgain(w, v, a, b, p, name, r, c, q, x.(call := c));
  }

  lemma SentMessage(p: Pid, x: Worker, proc: Proc) returns (m: Message)
    requires WorkerFits(p, x, proc) && x.call.SAdvance?
    ensures Wants(p, x.proc).Send? && Wants(p, x.proc).msg == m && proc == x.proc
    ensures Nameable(m) && Carries(x.call.msg, m)
    ensures WorkerFits(p, x.(call := SUnlock), AfterSend(x.proc))
  {
    hide Carries, Power10;
    m := Wants(p, x.proc).msg;
  }

  /** What a process receives from a queue of the protocol it can read. */
  ghost predicate Readable(a: P.State, p: Pid) {
    p in a.procs ==>
      (match Wants(p, a.procs[p])
       case Receive(from) => a.queues.Get(from) != [] ==> AfterReceive(a.procs[p], a.queues.Get(from)[0]).To?
       case _ => true)
  }

  lemma ReceiveTakesEffect(w: World, a: P.State, p: Pid, r: Ring, c: Call) returns (b: P.State)
    requires Linked(w, a) && p in w.workers && w.workers[p].call.RAdvance? && Readable(a, p)
    requires var name := Target(Wants(p, w.workers[p].proc)); Do(w.rings.Get(name), w.workers[p].call) == Go(r, c)
    ensures var name := Target(Wants(p, w.workers[p].proc));
            var x := w.workers[p];
            && c == RUnlock(x.call.msg) && P.Next(a, p) == P.Moved(b)
            && Linked(w.(rings := w.rings.Set(name, r), workers := w.workers[p := x.(call := c)]), b)
            && (exists m :: ItemText(m) == CString(x.call.msg) && b.delivered == Log(a.delivered, p, x.proc, m))
  {
    hide F.Inv, Contents, Carries, Nameable, Power10, Continue, Start, AfterReceive, CString, Text, ItemText;
    var name, x := Target(Wants(p, w.workers[p].proc)), w.workers[p];
    InsideQueue(w, a, p, r, c);
    assert WorkerFits(p, x, a.procs[p]);
    Awaiting(p, x, a.procs[p]);
    var q := a.queues.Get(name);
    HeadCarried(x.call.msg, Contents(r), q);
    var m := q[0];
    var proc := AfterReceive(x.proc, m).proc;
    ReceivedMessage(p, x, m);
    b := a.(queues := a.queues.Set(name, q[1..]), procs := a.procs[p := proc], delivered := Log(a.delivered, p, x.proc, m));
    var v := w.(rings := w.rings.Set(name, r), workers := w.workers[p := x.(call := c)]);
    assert P.Next(a, p) == P.Moved(b);
    hide Do, Wants, Target, Linked, Log;
    LinkedAgain(w, v, a, b, p, name, r, c, q[1..], x.(call := c));
  }

  lemma Awaiting(p: Pid, x: Worker, proc: Proc)
    requires WorkerFits(p, x, proc) && x.call.RAdvance?
    ensures Wants(p, x.proc).Receive? && proc == x.proc && p < Power10(10) && |x.buffer| == MAX_MSG_SIZE
  {
    hide Carries, Power10;
  }

  lemma HeadCarried(b: Msg, buffers: seq<Msg>, q: seq<Message>)
    requires Carried([b] + buffers, q)
    ensures q != [] && Nameable(q[0]) && Carries(b, q[0]) && Carried(buffers, q[1..])
  {
    hide Carries, Nameable;
    assert ([b] + buffers)[0] == b && ([b] + buffers)[1..] == buffers;
  }

  lemma ReceivedMessage(p: Pid, x: Worker, m: Message)
    requires Wants(p, x.proc).Receive? && x.call.RAdvance? && p < Power10(10) && |x.buffer| == MAX_MSG_SIZE
    requires Nameable(m) && Carries(x.call.msg, m) && AfterReceive(x.proc, m).To?
    ensures WorkerFits(p, x.(call := RUnlock(x.call.msg)), AfterReceive(x.proc, m).proc)
    ensures ItemText(m) == CString(x.call.msg)
  {
    hide Text, Start, CString, Power10, ScanInt, ScanTwo, Sending;
    ReceivedIsSent(x.call.msg, m);
  }

  // ---- returns ----

  /** A program point at which the message to be sent fits its buffer. */
  predicate Sane(proc: Proc) {
    match proc
    case PutItem(c, k) => k < |ITEM_NAMES|
    case PassToken(c, k) => c <= |ITEM_NAMES| && k <= |ITEM_NAMES|
    case ReturnToken(c) => c <= |ITEM_NAMES|
    case _ => true
  }

  lemma StartFits(p: Pid, proc: Proc, buffer: Msg)
    requires p < Power10(10) && |buffer| == MAX_MSG_SIZE && Sane(proc)
    ensures Start(p, proc, buffer).Ready?
    ensures var x := Start(p, proc, buffer).worker;
            && WorkerFits(p, x, proc) && x.proc == proc && InHand(x) == []
            && (x.call == REmpty || (x.call.SFull? && |x.call.msg| == MAX_MSG_SIZE))
  {
    hide Text, Carries, Power10;
    if Wants(p, proc).Send? {
      PrintableWants(p, proc);
      PrintedBufferCarries(buffer, Wants(p, proc).msg);
      SprintfLength(buffer, Wants(p, proc).msg);
    }
  }

  /** Going to the next call fails exactly when there is no name for the item, or the text
      of the message, with its NUL, is longer than the buffer. */
  lemma OverrunsExactlyWhen(p: Pid, proc: Proc, buffer: Msg)
    requires |buffer| == MAX_MSG_SIZE
    ensures Start(p, proc, buffer).Overrun? <==>
              match proc
              case PutItem(_, k) => k >= 8 || 1 + |Decimal(p)| + 3 + |ITEM_NAMES[k]| >= 30
              case PassToken(c, k) => if k == c then |Decimal(c)| >= 30 else |Decimal(c)| + 1 + |Decimal(k)| >= 30
              case ReturnToken(c) => |Decimal(c)| + 1 + |Decimal(0)| >= 30
              case _ => false
  {
    hide Decimal;
  }

  lemma SprintfLength(buffer: Msg, m: Message)
    requires |buffer| == MAX_MSG_SIZE && Nameable(m) && |Text(m)| < MAX_MSG_SIZE
    ensures |Sprintf(buffer, 0, Text(m))| == MAX_MSG_SIZE
  {
    hide Text;
  }

  lemma PrintableWants(p: Pid, proc: Proc)
    requires p < Power10(10) && Sane(proc) && Wants(p, proc).Send?
    ensures Printable(Wants(p, proc).msg) && Nameable(Wants(p, proc).msg)
  {
    hide Power10;
  }

  /** How a worker goes on after a call. */
  function Resumed(p: Pid, x: Worker, c: Call): Started {
    if c.Got? then Continue(p, x.proc, c.msg) else Start(p, AfterSend(x.proc), x.buffer)
  }

  /** The return of a call: the worker goes on to where the protocol already is. */
  lemma ReturnStep(w: World, a: P.State, p: Pid, r: Ring, c: Call)
    requires Linked(w, a) && p in w.workers && Sane(a.procs[p])
    requires var name := Target(Wants(p, w.workers[p].proc)); Do(w.rings.Get(name), w.workers[p].call) == Go(r, c)
    requires c.Returned()
    ensures var started := Resumed(p, w.workers[p], c);
            && started.Ready? && started.worker.proc == a.procs[p] && InHand(started.worker) == []
            && (started.worker.call == REmpty || started.worker.call.SFull?)
            && (if c == Sent then w.workers[p].call == SEmpty else w.workers[p].call == RFull(c.msg))
            && Linked(w.(rings := w.rings.Set(Target(Wants(p, w.workers[p].proc)), r),
                         workers := w.workers[p := started.worker]), a)
  {
    hide F.Inv, Contents, Carried, Carries, Wants, Target, WorkerFits, Start, Continue, Power10;
    var name, x := Target(Wants(p, w.workers[p].proc)), w.workers[p];
    assert WorkerFits(p, x, a.procs[p]);
    InsideQueue(w, a, p, r, c);
    ReturningWorker(p, x, a.procs[p], w.rings.Get(name), r, c);
    var buffer := if c == Sent then x.buffer else c.msg;
    StartFits(p, a.procs[p], buffer);
    var x' := Start(p, a.procs[p], buffer).worker;
    SameQueue(a.queues, name);
    var v := w.(rings := w.rings.Set(name, r), workers := w.workers[p := x']);
    hide Do;
    LinkedAgain(w, v, a, a, p, name, r, c, a.queues.Get(name), x');
  }

  lemma ReturningWorker(p: Pid, x: Worker, proc: Proc, before: Ring, r: Ring, c: Call)
    requires WorkerFits(p, x, proc) && Do(before, x.call) == Go(r, c) && c.Returned()
    ensures p < Power10(10) && |x.buffer| == MAX_MSG_SIZE
    ensures if c == Sent then x.call == SEmpty && proc == AfterSend(x.proc)
            else x.call == RFull(c.msg) && |c.msg| == MAX_MSG_SIZE && Continue(p, x.proc, c.msg) == Start(p, proc, c.msg)
  {
    hide Carries, Nameable, Continue, Start, Power10, AfterSend;
  }

  // ---- one step of one process ----

  datatype Meaning = Invisible | Protocol(b: P.State)

  lemma NextOfCall(w: World, p: Pid)
    requires p in w.workers && Wants(p, w.workers[p].proc) != OutOfRange
    ensures var name := Target(Wants(p, w.workers[p].proc));
            var x := w.workers[p];
            match Do(w.rings.Get(name), x.call)
            case Stay => TokenSystem.Next(w, p).Blocked?
            case Crash => TokenSystem.Next(w, p).Fault?
            case Go(r, c) =>
              var rings := w.rings.Set(name, r);
              match c
              case Sent => TokenSystem.Next(w, p) == Resume(w.(rings := rings), p, Start(p, AfterSend(x.proc), x.buffer), w.printed)
              case Got(b) => TokenSystem.Next(w, p) == Resume(w.(rings := rings), p, Continue(p, x.proc, b),
                               if x.proc.TakeItem? then w.printed + [Printed(p, CString(b))] else w.printed)
              case _ => TokenSystem.Next(w, p) == TokenSystem.Moved(w.(rings := rings, workers := w.workers[p := x.(call := c)]))
  {
    hide Do, Start, Continue, CString;
  }

  /** Whether the call under way has already taken effect. */
  predicate TookEffect(c: Call) { c.SUnlock? || c.SEmpty? || c.RUnlock? || c.RFull? }

  /** Steps left until the call returns. */
  function StepsLeft(c: Call): nat {
    match c
    case SFull(_) => 6
    case SMutex(_) => 5
    case SCopy(_) => 4
    case SAdvance(_) => 3
    case SUnlock => 2
    case SEmpty => 1
    case REmpty => 6
    case RMutex => 5
    case RCopy => 4
    case RAdvance(_) => 3
    case RUnlock(_) => 2
    case RFull(_) => 1
    case _ => 0
  }

  lemma QuietCall(r: Ring, x: Worker, r': Ring, c: Call)
    requires Do(r, x.call) == Go(r', c) && !c.Returned()
    ensures StepsLeft(c) < StepsLeft(x.call) && !F.AtRest(c)
    ensures !x.call.SAdvance? && !x.call.RAdvance? ==> TookEffect(c) == TookEffect(x.call) && InHand(x.(call := c)) == InHand(x)
    ensures x.call.SAdvance? ==> InHand(x.(call := c)) == InHand(x) == []
  {
  }

  // ---- printing ----

  lemma {:induction false} PrintedMore(printed: seq<Printed>, p: Pid, text: string, q: Pid)
    ensures PrintedBy(printed + [Printed(p, text)], q) == PrintedBy(printed, q) + if p == q then [text] else []
  {
    assert (printed + [Printed(p, text)])[..|printed|] == printed;
  }

  lemma {:induction false} DeliveredMore(log: seq<Delivery>, p: Pid, m: Message, q: Pid)
    ensures DeliveredTo(log + [Delivery(p, m)], q) == DeliveredTo(log, q) + if p == q then [ItemText(m)] else []
  {
    hide ItemText;
    assert (log + [Delivery(p, m)])[..|log|] == log;
  }

  lemma NothingPrinted(w: World, v: World, a: P.State, b: P.State, p: Pid)
    requires Printing(w, a) && p in w.workers && p in v.workers && v.workers == w.workers[p := v.workers[p]]
    requires v.printed == w.printed && b.delivered == a.delivered && InHand(v.workers[p]) == InHand(w.workers[p])
    ensures Printing(v, b)
  {
    hide PrintedBy, DeliveredTo, InHand;
  }

  lemma ItemReceived(w: World, v: World, a: P.State, b: P.State, p: Pid, text: string)
    requires Printing(w, a) && p in w.workers && p in v.workers && v.workers == w.workers[p := v.workers[p]]
    requires v.printed == w.printed && InHand(w.workers[p]) == []
    requires var proc := w.workers[p].proc;
             && InHand(v.workers[p]) == (if proc.TakeItem? then [text] else [])
             && exists m :: ItemText(m) == text && b.delivered == Log(a.delivered, p, proc, m)
    ensures Printing(v, b)
  {
    hide PrintedBy, DeliveredTo, InHand, ItemText;
    var m :| ItemText(m) == text && b.delivered == Log(a.delivered, p, w.workers[p].proc, m);
    forall q | q in v.workers
      ensures PrintedBy(v.printed, q) + InHand(v.workers[q]) == DeliveredTo(b.delivered, q)
    {
      assert PrintedBy(w.printed, q) + InHand(w.workers[q]) == DeliveredTo(a.delivered, q);
      if w.workers[p].proc.TakeItem? {
        DeliveredMore(a.delivered, p, m, q);
        assert PrintedBy(w.printed, q) + [] == PrintedBy(w.printed, q);
      }
    }
  }

  lemma ItemPrinted(w: World, v: World, a: P.State, p: Pid)
    requires Printing(w, a) && p in w.workers && p in v.workers && v.workers == w.workers[p := v.workers[p]]
    requires w.workers[p].call.RFull? && InHand(v.workers[p]) == []
    requires v.printed == if w.workers[p].proc.TakeItem? then w.printed + [Printed(p, CString(w.workers[p].call.msg))]
                          else w.printed
    ensures Printing(v, a)
  {
    hide PrintedBy, DeliveredTo, CString;
    forall q | q in v.workers
      ensures PrintedBy(v.printed, q) + InHand(v.workers[q]) == DeliveredTo(a.delivered, q)
    {
      assert PrintedBy(w.printed, q) + InHand(w.workers[q]) == DeliveredTo(a.delivered, q);
      if w.workers[p].proc.TakeItem? {
        PrintedMore(w.printed, p, CString(w.workers[p].call.msg), q);
        hide InHand;
        assert PrintedBy(v.printed, q) + [] == PrintedBy(v.printed, q);
      }
    }
  }

  // ---- one step of one process, with what it prints ----

  /** How a step of `p` from `w` to `v` is a step of the protocol from `a`, or none. */
  ghost predicate Explains(meaning: Meaning, w: World, v: World, a: P.State, p: Pid)
    requires p in w.workers && p in v.workers
  {
    match meaning
    case Invisible => Linked(v, a) && Printing(v, a)
                      && (TookEffect(v.workers[p].call) == TookEffect(w.workers[p].call) || F.AtRest(v.workers[p].call))
    case Protocol(b) => P.Next(a, p) == P.Moved(b) && Linked(v, b) && Printing(v, b)
                        && !TookEffect(w.workers[p].call) && TookEffect(v.workers[p].call)
                        && !F.AtRest(w.workers[p].call)
  }

  /** No step faults, and a step that can be taken is a step of the protocol over plain
      queues, the one at which a call takes effect, or invisible to it. What a reader
      has printed, with an item it may have in hand, is what was delivered to it. */
  lemma Refines(w: World, a: P.State, p: Pid) returns (meaning: Meaning)
    requires Linked(w, a) && Printing(w, a) && p in w.workers && Readable(a, p) && Sane(a.procs[p])
    ensures !TokenSystem.Next(w, p).Fault?
    ensures TokenSystem.Next(w, p).Moved? <==> Do(w.rings.Get(Target(Wants(p, w.workers[p].proc))), w.workers[p].call).Go?
    ensures TokenSystem.Next(w, p).Moved? ==>
              Advances(w, TokenSystem.Next(w, p).next, p) && Explains(meaning, w, TokenSystem.Next(w, p).next, a, p)
  {
    hide Linked, TokenSystem.Next, Do, Wants, Target, Readable, Sane, Printing, Explains, Advances, Start, Continue, CString;
    meaning := Invisible;
    ProperCall(w, a, p);
    NextOfCall(w, p);
    match Do(w.rings.Get(Target(Wants(p, w.workers[p].proc))), w.workers[p].call)
    case Stay =>
    case Crash =>
    case Go(r, c) =>
      if c.Returned() {
        ReturnRefines(w, a, p, r, c);
      } else {
        meaning := CallRefines(w, a, p, r, c);
      }
  }

  /** A call returns. */
  lemma ReturnRefines(w: World, a: P.State, p: Pid, r: Ring, c: Call)
    requires Linked(w, a) && Printing(w, a) && p in w.workers && Sane(a.procs[p])
    requires Wants(p, w.workers[p].proc) != OutOfRange && c.Returned()
    requires Do(w.rings.Get(Target(Wants(p, w.workers[p].proc))), w.workers[p].call) == Go(r, c)
    ensures TokenSystem.Next(w, p).Moved? && Advances(w, TokenSystem.Next(w, p).next, p)
    ensures Explains(Invisible, w, TokenSystem.Next(w, p).next, a, p)
  {
    hide Linked, TokenSystem.Next, Do, Wants, Target, Sane, CString, InHand, Printing, Start, Continue, AfterSend;
    var x := w.workers[p];
    NextOfCall(w, p);
    ReturnStep(w, a, p, r, c);
    LinkedIgnoresPrinted(w, a);
    var v := TokenSystem.Next(w, p).next;
    if c == Sent {
      NothingInHand(x);
      NothingPrinted(w, v, a, a, p);
    } else {
      ItemPrinted(w, v, a, p);
    }
  }

  /** A call takes a step and is still under way. */
  lemma CallRefines(w: World, a: P.State, p: Pid, r: Ring, c: Call) returns (meaning: Meaning)
    requires Linked(w, a) && Printing(w, a) && p in w.workers && Readable(a, p)
    requires Wants(p, w.workers[p].proc) != OutOfRange && !c.Returned()
    requires Do(w.rings.Get(Target(Wants(p, w.workers[p].proc))), w.workers[p].call) == Go(r, c)
    ensures TokenSystem.Next(w, p).Moved? && Advances(w, TokenSystem.Next(w, p).next, p)
    ensures Explains(meaning, w, TokenSystem.Next(w, p).next, a, p)
  {
    hide Linked, P.Next, TokenSystem.Next, Do, Wants, Target, Readable, CString, InHand, Printing, ItemText, Log, Start, Continue;
    var x := w.workers[p];
    var v := w.(rings := w.rings.Set(Target(Wants(p, x.proc)), r), workers := w.workers[p := x.(call := c)]);
    NextOfCall(w, p);
    assert TokenSystem.Next(w, p) == TokenSystem.Moved(v);
    QuietCall(w.rings.Get(Target(Wants(p, x.proc))), x, r, c);
    meaning := Invisible;
    if x.call.SAdvance? {
      var b := SendTakesEffect(w, a, p, r, c);
      meaning := Protocol(b);
      NothingPrinted(w, v, a, b, p);
    } else if x.call.RAdvance? {
      var b := ReceiveTakesEffect(w, a, p, r, c);
      meaning := Protocol(b);
      NothingInHand(x);
      TextInHand(x);
      ItemReceived(w, v, a, b, p, CString(x.call.msg));
    } else {
      QuietStep(w, a, p, r, c);
      NothingPrinted(w, v, a, a, p);
    }
  }

  /** `p` is the only worker that has changed: it has taken a step towards its return,
      or has returned from a call that had taken effect. */
  predicate Advances(w: World, v: World, p: Pid)
    requires p in w.workers
  {
    && v.workers.Keys == w.workers.Keys && v.workers == w.workers[p := v.workers[p]]
    && if F.AtRest(v.workers[p].call) then
         TookEffect(w.workers[p].call) && (v.workers[p].call == REmpty || v.workers[p].call.SFull?)
       else StepsLeft(v.workers[p].call) < StepsLeft(w.workers[p].call)
  }

  lemma NothingInHand(x: Worker)
    requires x.call == SEmpty || x.call.RAdvance?
    ensures InHand(x) == []
  {
  }

  lemma TextInHand(x: Worker)
    requires x.call.RAdvance?
    ensures InHand(x.(call := RUnlock(x.call.msg))) == if x.proc.TakeItem? then [CString(x.call.msg)] else []
  {
  }

  lemma ProperCall(w: World, a: P.State, p: Pid)
    requires Linked(w, a) && p in w.workers
    ensures Wants(p, w.workers[p].proc) != OutOfRange && !w.workers[p].call.Returned()
    ensures !Do(w.rings.Get(Target(Wants(p, w.workers[p].proc))), w.workers[p].call).Crash?
  {
    hide Do, F.Inv, Carries, Contents, Sending, Receiving;
    var name, x := Target(Wants(p, w.workers[p].proc)), w.workers[p];
    assert WorkerFits(p, x, a.procs[p]);
    StillCalling(p, x, a.procs[p]);
    assert QueueFits(w.rings.Get(name), CallsOn(w.workers, name), a.bound, a.queues.Get(name));
    F.CallStep(Q.State(w.rings.Get(name), CallsOn(w.workers, name)), p);
  }

  lemma LinkedIgnoresPrinted(w: World, a: P.State)
    ensures forall v: World, printed :: Linked(v, a) ==> Linked(v.(printed := printed), a)
  {
  }
}

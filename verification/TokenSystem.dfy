/** The whole of msgq/custom_queue.cpp: the token programs running over three
    shared queues, one semaphore operation, memcpy or index update at a time,
    with every message printed into and scanned from a 30-byte buffer. */
module TokenSystem {
  import opened Processes
  import opened Numerals
  import opened MQueue
  import opened TokenProgram
  import opened TokenText

  datatype Rings = Rings(producers: Ring, crate: Ring, consumers: Ring) {
    function Get(name: Name): Ring {
      match name case Producers => producers case Crate => crate case Consumers => consumers
    }
    function Set(name: Name, r: Ring): Rings {
      match name
      case Producers => this.(producers := r)
      case Crate => this.(crate := r)
      case Consumers => this.(consumers := r)
    }
  }

  /** A process: its loop variables, the queue call it is in, and its message buffer. */
  datatype Worker = Worker(proc: Proc, call: Call, buffer: Msg)

  /** A line that a consumer prints. */
  datatype Printed = Printed(reader: Pid, text: string)

  datatype World = World(rings: Rings, workers: map<Pid, Worker>, printed: seq<Printed>)

  datatype Started = Ready(worker: Worker) | Overrun

  /** Going to the next queue call: before a send, the message is printed into the buffer. */
  function Start(p: Pid, proc: Proc, buffer: Msg): Started {
    match Wants(p, proc)
    case Receive(_) => Ready(Worker(proc, REmpty, buffer))
    case Send(_, m) =>
      if (m.Item? ==> m.index < |ITEM_NAMES|) && |Text(m)| < |buffer| then
        var b := Sprintf(buffer, 0, Text(m));
        Ready(Worker(proc, SFull(b), b))
      else Overrun
    case OutOfRange => Overrun
  }

  /** Going on with the text of a received message. */
  function Continue(p: Pid, proc: Proc, buffer: Msg): Started {
    var text := CString(buffer);
    match proc
    case AwaitToken =>
      (match ScanTwo(text)
       case Two(c, k) => if c >= 0 && k >= 0 then Start(p, PutItem(c, k), buffer) else Overrun
       case Fewer => Overrun)
    case AwaitHandover =>
      (match ScanInt(text)
       case Match(c, _) => if c >= 0 then Start(p, Loop(c, 0), buffer) else Overrun
       case NoMatch => Overrun)
    case TakeItem(c, i) => Start(p, Loop(c, i + 1), buffer)
    case _ => Overrun
  }

  datatype Outcome = Moved(next: World) | Blocked | Fault

  function Next(w: World, p: Pid): Outcome {
    if p !in w.workers then Blocked else
    var x := w.workers[p];
    match Wants(p, x.proc)
    case Receive(from) => Proceed(w, p, from)
    case Send(to, _) => Proceed(w, p, to)
    case OutOfRange => Fault
  }

  /** One step of the call that `p` is in on queue `name`. */
  function Proceed(w: World, p: Pid, name: Name): Outcome
    requires p in w.workers
  {
    var x := w.workers[p];
    match Do(w.rings.Get(name), x.call)
    case Stay => Blocked
    case Crash => Fault
    case Go(r, call) =>
      var rings := w.rings.Set(name, r);
      match call
      case Sent => Resume(w.(rings := rings), p, Start(p, AfterSend(x.proc), x.buffer), w.printed)
      case Got(b) => Resume(w.(rings := rings), p, Continue(p, x.proc, b),
                            if x.proc.TakeItem? then w.printed + [Printed(p, CString(b))] else w.printed)
      case _ => Moved(w.(rings := rings, workers := w.workers[p := x.(call := call)]))
  }

  function Resume(w: World, p: Pid, started: Started, printed: seq<Printed>): Outcome {
    match started
    case Ready(x) => Moved(w.(workers := w.workers[p := x], printed := printed))
    case Overrun => Fault
  }

  function Run(w: World, schedule: seq<Pid>): Outcome
    decreases |schedule|
  {
    if schedule == [] then Moved(w)
    else match Next(w, schedule[0])
      case Moved(v) => Run(v, schedule[1..])
      case Blocked => Blocked
      case Fault => Fault
  }
}

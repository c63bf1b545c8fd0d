/** The crate shared through POSIX semaphores: any number of producers fill its
    slots one at a time, and the producer that fills the last slot wakes one
    consumer, which drains the whole batch (semaphores-pr/producer.cpp,
    consumer.cpp, crate.cpp).

    One step is one semaphore operation or one statement on the shared memory.
    A step that cannot be taken now is Blocked; one that would index past the
    end of a table is a Fault. */
module PosixCrate {
  import opened Processes
  import opened CrateTypes

  datatype Pc =
    | PWaitPermit | PWaitMem | PWrite | PCount | PCheck | PSignal | PRelease
    | CWaitReady | CWaitMem | CTest(i: nat) | CRead(i: nat) | CPost(i: nat) | CReset | CRelease
  {
    predicate IsProducer() {
      PWaitPermit? || PWaitMem? || PWrite? || PCount? || PCheck? || PSignal? || PRelease?
    }

    /** Between taking the crate over and emptying it. */
    predicate Drains() { CTest? || CRead? || CPost? || CReset? }

    /** Between the wait and the post on the memory semaphore. */
    predicate Holds() {
      PWrite? || PCount? || PCheck? || PSignal? || PRelease? || Drains() || CRelease?
    }
  }

  /** The shared memory and the three semaphores, with the log of the items put
      into the crate, of those taken out of it, and of the completed drains. */
  datatype Crate = Crate(
    capacity: nat, filled: nat, data: seq<Cell>,
    permits: nat, mem: nat, ready: nat,
    tags: seq<Tag>, produced: seq<Cell>, delivered: seq<Cell>, batches: nat)

  datatype Effect = Go(crate: Crate, pc: Pc) | Stay | Crash

  /** What process `p` does to the shared crate at `pc`, and where it goes next. */
  function Do(c: Crate, p: Pid, pc: Pc): Effect {
    match pc
    case PWaitPermit => if c.permits == 0 then Stay else Go(c.(permits := c.permits - 1), PWaitMem)
    case PWaitMem => if c.mem == 0 then Stay else Go(c.(mem := c.mem - 1), PWrite)
    case PWrite =>
      if c.filled < |ITEM_NAMES| && c.filled < |c.data| then
        var tag := Tag(p, c.filled);
        var cell := Deposit(c.data[c.filled], TagText(tag));
        Go(c.(data := c.data[c.filled := cell], tags := c.tags + [tag], produced := c.produced + [cell]), PCount)
      else Crash
    case PCount => Go(c.(filled := c.filled + 1), PCheck)
    case PCheck => Go(c, if c.filled == c.capacity then PSignal else PRelease)
    case PSignal => Go(c.(ready := c.ready + 1), PRelease)
    case PRelease => Go(c.(mem := c.mem + 1), PWaitPermit)
    case CWaitReady => if c.ready == 0 then Stay else Go(c.(ready := c.ready - 1), CWaitMem)
    case CWaitMem => if c.mem == 0 then Stay else Go(c.(mem := c.mem - 1), CTest(0))
    case CTest(i) => Go(c, if i < c.capacity then CRead(i) else CReset)
    case CRead(i) =>
      if i < |c.data| then Go(c.(delivered := c.delivered + [c.data[i]]), CPost(i)) else Crash
    case CPost(i) => Go(c.(permits := c.permits + 1), CTest(i + 1))
    case CReset => Go(c.(filled := 0, batches := c.batches + 1), CRelease)
    case CRelease => Go(c.(mem := c.mem + 1), CWaitReady)
  }

  /** The crate and the program counter of every process. */
  datatype State = State(crate: Crate, pcs: map<Pid, Pc>)

  datatype Outcome = Moved(next: State) | Blocked | Fault

  function Next(s: State, p: Pid): Outcome {
    if p !in s.pcs then Blocked
    else match Do(s.crate, p, s.pcs[p])
      case Go(c, pc) => Moved(State(c, s.pcs[p := pc]))
      case Stay => Blocked
      case Crash => Fault
  }

  /** The processes named by a schedule step one after the other. */
  function Run(s: State, schedule: seq<Pid>): Outcome
    decreases |schedule|
  {
    if schedule == [] then Moved(s)
    else match Next(s, schedule[0])
      case Moved(t) => Run(t, schedule[1..])
      case Blocked => Blocked
      case Fault => Fault
  }

  /** A fresh crate with every process at the top of its loop. */
  ghost predicate Initial(s: State) {
    && s.crate.filled == 0
    && |s.crate.data| == s.crate.capacity
    && s.crate.permits == s.crate.capacity && s.crate.mem == 1 && s.crate.ready == 0
    && s.crate.tags == [] && s.crate.produced == [] && s.crate.delivered == [] && s.crate.batches == 0
    && (forall p :: p in s.pcs ==> s.pcs[p] == PWaitPermit || s.pcs[p] == CWaitReady)
  }

  lemma {:induction false} RunConcat(s: State, a: seq<Pid>, b: seq<Pid>)
    requires Run(s, a).Moved?
    ensures Run(s, a + b) == Run(Run(s, a).next, b)
    decreases |a|
  {
    if a == [] {
      assert a + b == b;
    } else {
      assert (a + b)[1..] == a[1..] + b;
      RunConcat(Next(s, a[0]).next, a[1..], b);
    }
  }
}

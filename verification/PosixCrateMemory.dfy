/** The crate programs as they run: processes that update the shared memory in place. */
module PosixCrateMemory {
  import opened Processes
  import opened Numerals
  import opened CrateTypes
  import opened PosixCrate
  import opened PosixCrateInvariant
  import opened PosixCrateText

  datatype Status = Stepped | Waits | Crashed

  class SharedCrate {
    const capacity: nat
    var filled: nat
    var data: array<Cell>
    var permits: nat
    var mem: nat
    var ready: nat
    var pcs: map<Pid, Pc>
    ghost var tags: seq<Tag>
    ghost var produced: seq<Cell>
    ghost var delivered: seq<Cell>
    ghost var batches: nat

    ghost function View(): State
      reads this, data
    {
      State(Crate(capacity, filled, data[..], permits, mem, ready, tags, produced, delivered, batches), pcs)
    }

    /** A crate for `capacity` items and the processes about to enter their loops. */
    constructor (capacity: nat, pcs: map<Pid, Pc>)
      requires forall p :: p in pcs ==> pcs[p] == PWaitPermit || pcs[p] == CWaitReady
      ensures Initial(View()) && (capacity >= 1 ==> Inv(View()))
      ensures View().crate.capacity == capacity && View().pcs == pcs
      ensures fresh(data)
      ensures forall i, x :: 0 <= i < capacity && 0 <= x < 20 ==> |data[i]| == 20 && data[i][x] == '\0'
      ensures (forall p :: p in pcs ==> p < Power10(10)) ==> Zeroed(View())
    {
      this.capacity := capacity;
      filled := 0;
      data := new Cell[capacity](_ => seq(CELL_SIZE, (_: nat) => '\0'));
      ready := 0;
      mem := 1;
      permits := capacity;
      this.pcs := pcs;
      tags, produced, delivered, batches := [], [], [], 0;
      new;
      if capacity >= 1 { InvInitial(View()); }
    }

    /** The step that process `p` takes on its own. */
    method Step(p: Pid) returns (status: Status)
      modifies this, data
      ensures data == old(data)
      ensures match Next(old(View()), p)
        case Moved(t) => status == Stepped && View() == t
        case Blocked => status == Waits && View() == old(View())
        case Fault => status == Crashed && View() == old(View())
    {
      if p !in pcs { return Waits; }
      if pcs[p].IsProducer() {
        status := ProducerStep(p);
      } else {
        status := ConsumerStep(p);
      }
    }

    method ProducerStep(p: Pid) returns (status: Status)
      requires p in pcs && pcs[p].IsProducer()
      modifies this, data
      ensures data == old(data)
      ensures match Next(old(View()), p)
        case Moved(t) => status == Stepped && View() == t
        case Blocked => status == Waits && View() == old(View())
        case Fault => status == Crashed && View() == old(View())
    {
      status := Stepped;
      match pcs[p]
      case PWaitPermit =>
        if permits == 0 { return Waits; }
        permits := permits - 1;
        pcs := pcs[p := PWaitMem];
      case PWaitMem =>
        if mem == 0 { return Waits; }
        mem := mem - 1;
        pcs := pcs[p := PWrite];
      case PWrite =>
        status := WriteSlot(p);
      case PCount =>
        filled := filled + 1;
        pcs := pcs[p := PCheck];
      case PCheck =>
        if filled == capacity {
          pcs := pcs[p := PSignal];
        } else {
          pcs := pcs[p := PRelease];
        }
      case PSignal =>
        ready := ready + 1;
        pcs := pcs[p := PRelease];
      case PRelease =>
        mem := mem + 1;
        pcs := pcs[p := PWaitPermit];
    }

    /** The text of the next item goes into the first free slot. */
    method WriteSlot(p: Pid) returns (status: Status)
      requires p in pcs && pcs[p] == PWrite
      modifies this, data
      ensures data == old(data)
      ensures match Next(old(View()), p)
        case Moved(t) => status == Stepped && View() == t
        case Blocked => status == Waits && View() == old(View())
        case Fault => status == Crashed && View() == old(View())
    {
      if filled >= |ITEM_NAMES| || filled >= data.Length { return Crashed; }
      var tag := Tag(p, filled);
      data[filled] := Deposit(data[filled], TagText(tag));
      tags := tags + [tag];
      produced := produced + [data[filled]];
      pcs := pcs[p := PCount];
      assert data[..] == old(data[..])[filled := data[filled]];
      return Stepped;
    }

    method ConsumerStep(p: Pid) returns (status: Status)
      requires p in pcs && !pcs[p].IsProducer()
      modifies this
      ensures data == old(data)
      ensures match Next(old(View()), p)
        case Moved(t) => status == Stepped && View() == t
        case Blocked => status == Waits && View() == old(View())
        case Fault => status == Crashed && View() == old(View())
    {
      status := Stepped;
      match pcs[p]
      case CWaitReady =>
        if ready == 0 { return Waits; }
        ready := ready - 1;
        pcs := pcs[p := CWaitMem];
      case CWaitMem =>
        if mem == 0 { return Waits; }
        mem := mem - 1;
        pcs := pcs[p := CTest(0)];
      case CTest(i) =>
        if i < capacity {
          pcs := pcs[p := CRead(i)];
        } else {
          pcs := pcs[p := CReset];
        }
      case CRead(i) =>
        if i >= data.Length { return Crashed; }
        delivered := delivered + [data[i]];
        pcs := pcs[p := CPost(i)];
      case CPost(i) =>
        permits := permits + 1;
        pcs := pcs[p := CTest(i + 1)];
      case CReset =>
        filled := 0;
        batches := batches + 1;
        pcs := pcs[p := CRelease];
      case CRelease =>
        mem := mem + 1;
        pcs := pcs[p := CWaitReady];
    }

    /** The processes named by the schedule run one step each, until one cannot. */
    method Execute(schedule: seq<Pid>) returns (status: Status, ghost done: nat)
      modifies this, data
      ensures data == old(data)
      ensures done <= |schedule| && Run(old(View()), schedule[..done]) == Moved(View())
      ensures status == Stepped <==> Run(old(View()), schedule).Moved?
      ensures status == Stepped ==> View() == Run(old(View()), schedule).next
      ensures status == Crashed <==> Run(old(View()), schedule).Fault?
      ensures old(Inv(View())) ==> Inv(View())
    {
      hide Run, Next, Inv, Initial;
      ghost var start := View();
      var i := 0;
      done := 0;
      RunNothing(start);
      assert schedule[..0] == [];
      while i < |schedule|
        invariant 0 <= i <= |schedule| && data == old(data) && done == i
        invariant Run(start, schedule[..i]) == Moved(View())
        invariant Inv(start) ==> Inv(View())
      {
        ghost var before := View();
        RunOneMore(start, schedule, i, before);
        status := Step(schedule[i]);
        if status != Stepped { return; }
        if Inv(start) { InvStep(before, schedule[i]); }
        i := i + 1;
        done := i;
      }
      assert schedule[..i] == schedule;
      status := Stepped;
    }
  }

  /** A crate is made and a schedule runs on it, as far as it can: every item put in shows
      its text and nothing else exactly when no longer one was in its slot before. */
  method MakeAndRun(capacity: nat, pcs: map<Pid, Pc>, schedule: seq<Pid>) returns (crate: SharedCrate, status: Status)
    requires capacity >= 1 && forall p :: p in pcs ==> p < Power10(10) && (pcs[p] == PWaitPermit || pcs[p] == CWaitReady)
    ensures forall k :: 0 <= k < |crate.View().crate.tags| ==> WholeWhenNoneLonger(crate.View().crate, k)
  {
    hide Run, Initial, Inv, Zeroed, Power10;
    crate := new SharedCrate(capacity, pcs);
    ghost var start := crate.View();
    ghost var done;
    status, done := crate.Execute(schedule);
    ghost var c := crate.View().crate;
    forall k | 0 <= k < |c.tags| ensures WholeWhenNoneLonger(c, k) {
      ShownWholeExactlyWhen(start, schedule[..done], k);
    }
  }

  lemma RunNothing(s: State)
    ensures Run(s, []) == Moved(s)
  {
  }

  /** One step further into a schedule. */
  lemma RunOneMore(s: State, schedule: seq<Pid>, i: nat, t: State)
    requires i < |schedule| && Run(s, schedule[..i]) == Moved(t)
    ensures Run(s, schedule[..i + 1]) == Next(t, schedule[i])
    ensures !Next(t, schedule[i]).Moved? ==> Run(s, schedule) == Next(t, schedule[i])
  {
    hide Next;
    var rest := schedule[i..];
    assert schedule == schedule[..i] + rest;
    assert schedule[..i + 1] == schedule[..i] + [schedule[i]];
    assert [schedule[i]][1..] == [];
    RunConcat(s, schedule[..i], rest);
    RunConcat(s, schedule[..i], [schedule[i]]);
  }
}

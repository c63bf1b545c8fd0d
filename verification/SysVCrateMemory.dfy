/** The System V crate program as it runs: semop() on a set of three semaphores and
    updates of the shared memory in place. */
module SysVCrateMemory {
  import opened Processes
  import opened CrateTypes
  import opened PosixCrate
  import opened SysVCrate

  /** One operation of a semop() call: add `op` to semaphore `num`, or wait until it is
      zero when `op` is. */
  datatype SemBuf = SemBuf(num: nat, op: int)

  predicate Passes(sem: nat, op: int) { if op == 0 then sem == 0 else sem + op >= 0 }

  datatype SemResult = Done(sems: seq<nat>) | MustWait

  /** semop(): all operations, in order, or none. */
  function Semop(sems: seq<nat>, ops: seq<SemBuf>): SemResult
    requires forall i :: 0 <= i < |ops| ==> ops[i].num < |sems|
    decreases |ops|
  {
    if ops == [] then Done(sems)
    else if !Passes(sems[ops[0].num], ops[0].op) then MustWait
    else Semop(sems[ops[0].num := sems[ops[0].num] + ops[0].op], ops[1..])
  }

  /** An operation waits for as many permits as it takes, or, when it is 0, for a
      semaphore of 0, and adds what it says. */
  lemma SingleOperation(sems: seq<nat>, num: nat, op: int)
    requires num < |sems|
    ensures op > 0 ==> Semop(sems, [SemBuf(num, op)]) == Done(sems[num := sems[num] + op])
    ensures op < 0 ==> Semop(sems, [SemBuf(num, op)]) == if sems[num] >= -op then Done(sems[num := sems[num] + op]) else MustWait
    ensures op == 0 ==> Semop(sems, [SemBuf(num, op)]) == if sems[num] == 0 then Done(sems) else MustWait
  {
    assert [SemBuf(num, op)][1..] == [];
    if Passes(sems[num], op) {
      var after: seq<nat> := sems[num := sems[num] + op];
      assert Semop(sems, [SemBuf(num, op)]) == Semop(after, []);
      if op == 0 { assert after == sems; }
    }
  }

  lemma PairOfOperations(sems: seq<nat>, first: SemBuf, second: SemBuf)
    requires first.num < |sems| && second.num < |sems| && first.num != second.num
    ensures var a, b := sems[first.num] + first.op, sems[second.num] + second.op;
            Semop(sems, [first, second])
            == if Passes(sems[first.num], first.op) && Passes(sems[second.num], second.op) then Done(sems[first.num := a][second.num := b]) else MustWait
  {
    assert [first, second][1..] == [second] && [second][1..] == [];
    if Passes(sems[first.num], first.op) {
      var trial: seq<nat> := sems[first.num := sems[first.num] + first.op];
      assert Semop(sems, [first, second]) == Semop(trial, [second]);
      if Passes(trial[second.num], second.op) {
        var both: seq<nat> := trial[second.num := trial[second.num] + second.op];
        assert Semop(trial, [second]) == Semop(both, []) == Done(both);
      }
    }
  }

  const CONSUMER: nat := 0
  const MEMORY: nat := 1
  const PRODUCER: nat := 2

  datatype Status = Stepped | Waits | Crashed

  class SharedVCrate {
    const capacity: nat
    var filled: nat
    var data: array<Cell>
    var sems: seq<nat>
    var pcs: map<Pid, VPc>
    ghost var tags: seq<Tag>
    ghost var produced: seq<Cell>
    ghost var delivered: seq<Cell>
    ghost var batches: nat

    ghost function View(): VState
      requires |sems| == 3
      reads this, data
    {
      VState(Crate(capacity, filled, data[..], sems[PRODUCER], sems[MEMORY], sems[CONSUMER],
                   tags, produced, delivered, batches), pcs)
    }

    constructor (capacity: nat, pcs: map<Pid, VPc>)
      requires forall p :: p in pcs ==> pcs[p] == VPWait || pcs[p] == VCWait
      ensures |sems| == 3 && VInitial(View()) && fresh(data)
      ensures View().crate.capacity == capacity && View().pcs == pcs
      ensures forall i, x :: 0 <= i < capacity && 0 <= x < 20 ==> |data[i]| == 20 && data[i][x] == '\0'
    {
      this.capacity := capacity;
      filled := 0;
      data := new Cell[capacity](_ => seq(CELL_SIZE, (_: nat) => '\0'));
      sems := [0, 1, capacity];
      this.pcs := pcs;
      tags, produced, delivered, batches := [], [], [], 0;
    }

    /** semop() on the set. */
    method Operate(ops: seq<SemBuf>) returns (ok: bool)
      requires forall i :: 0 <= i < |ops| ==> ops[i].num < |sems|
      modifies this`sems
      ensures |sems| == |old(sems)|
      ensures match Semop(old(sems), ops)
        case Done(s) => ok && sems == s
        case MustWait => !ok && sems == old(sems)
    {
      var trial: seq<nat> := sems;
      var i := 0;
      while i < |ops|
        invariant 0 <= i <= |ops| && |trial| == |sems| && sems == old(sems)
        invariant Semop(sems, ops) == Semop(trial, ops[i..])
      {
        var o := ops[i];
        assert ops[i..][0] == o && ops[i..][1..] == ops[i + 1..];
        if !Passes(trial[o.num], o.op) { return false; }
        trial := trial[o.num := trial[o.num] + o.op];
        i := i + 1;
      }
      sems := trial;
      return true;
    }

    /** A grouped wait or a grouped post, and the program point after it. */
    method Group(p: Pid, first: SemBuf, second: SemBuf, next: VPc) returns (status: Status)
      requires |sems| == 3 && first.num < 3 && second.num < 3 && first.num != second.num
      modifies this`sems, this`pcs
      ensures |sems| == 3
      ensures var a, b := old(sems)[first.num] + first.op, old(sems)[second.num] + second.op;
              if Passes(old(sems)[first.num], first.op) && Passes(old(sems)[second.num], second.op) then
                && status == Stepped && pcs == old(pcs)[p := next]
                && sems == old(sems)[first.num := a][second.num := b]
              else status == Waits && pcs == old(pcs) && sems == old(sems)
    {
      PairOfOperations(sems, first, second);
      var ok := Operate([first, second]);
      if !ok { return Waits; }
      pcs := pcs[p := next];
      return Stepped;
    }

    /** The step that process `p` takes on its own. */
    method Step(p: Pid) returns (status: Status)
      requires |sems| == 3
      modifies this, data
      ensures |sems| == 3 && data == old(data)
      ensures match VNext(old(View()), p)
        case VMoved(v) => status == Stepped && View() == v
        case VBlocked => status == Waits && View() == old(View())
        case VFault => status == Crashed && View() == old(View())
    {
      if p !in pcs { return Waits; }
      if pcs[p].IsProducer() {
        status := ProducerStep(p);
      } else {
        status := ConsumerStep(p);
      }
    }

    method ProducerStep(p: Pid) returns (status: Status)
      requires |sems| == 3 && p in pcs && pcs[p].IsProducer()
      modifies this, data
      ensures |sems| == 3 && data == old(data)
      ensures match VNext(old(View()), p)
        case VMoved(v) => status == Stepped && View() == v
        case VBlocked => status == Waits && View() == old(View())
        case VFault => status == Crashed && View() == old(View())
    {
      status := Stepped;
      match pcs[p]
      case VPWait => status := Group(p, SemBuf(PRODUCER, -1), SemBuf(MEMORY, -1), VPWrite);
      case VPWrite => status := WriteSlot(p);
      case VPCount =>
        filled := filled + 1;
        pcs := pcs[p := VPCheck];
      case VPCheck =>
        if filled == capacity {
          pcs := pcs[p := VPSignal];
        } else {
          pcs := pcs[p := VPRelease];
        }
      case VPSignal =>
        sems := sems[CONSUMER := sems[CONSUMER] + 1];
        pcs := pcs[p := VPRelease];
      case VPRelease =>
        sems := sems[MEMORY := sems[MEMORY] + 1];
        pcs := pcs[p := VPWait];
    }

    method WriteSlot(p: Pid) returns (status: Status)
      requires |sems| == 3 && p in pcs && pcs[p] == VPWrite
      modifies this, data
      ensures |sems| == 3 && data == old(data)
      ensures match VNext(old(View()), p)
        case VMoved(v) => status == Stepped && View() == v
        case VBlocked => status == Waits && View() == old(View())
        case VFault => status == Crashed && View() == old(View())
    {
      if filled >= |ITEM_NAMES| || filled >= data.Length { return Crashed; }
      var tag := Tag(p, filled);
      data[filled] := Deposit(data[filled], TagText(tag));
      tags := tags + [tag];
      produced := produced + [data[filled]];
      pcs := pcs[p := VPCount];
      assert data[..] == old(data[..])[filled := data[filled]];
      return Stepped;
    }

    method ConsumerStep(p: Pid) returns (status: Status)
      requires |sems| == 3 && p in pcs && !pcs[p].IsProducer()
      modifies this
      ensures |sems| == 3 && data == old(data)
      ensures match VNext(old(View()), p)
        case VMoved(v) => status == Stepped && View() == v
        case VBlocked => status == Waits && View() == old(View())
        case VFault => status == Crashed && View() == old(View())
    {
      status := Stepped;
      match pcs[p]
      case VCWait => status := Group(p, SemBuf(CONSUMER, -1), SemBuf(MEMORY, -1), VCTest(0));
      case VCTest(i) =>
        if i < capacity {
          pcs := pcs[p := VCRead(i)];
        } else {
          pcs := pcs[p := VCReset];
        }
      case VCRead(i) =>
        if i >= data.Length { return Crashed; }
        delivered := delivered + [data[i]];
        pcs := pcs[p := VCTest(i + 1)];
      case VCReset =>
        filled := 0;
        batches := batches + 1;
        pcs := pcs[p := VCReturn];
      case VCReturn => status := Group(p, SemBuf(PRODUCER, capacity), SemBuf(MEMORY, 1), VCWait);
    }
  }
}

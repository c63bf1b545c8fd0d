/** When a process of the crate programs has to wait, and when it goes past the table
    of names: for every reachable crate and every program point. */
module PosixCrateWaits {
  import opened Processes
  import opened CrateTypes
  import opened Tally
  import opened PosixCrate
  import opened PosixCrateInvariant
  import opened PosixCrateRefinement

  /** Completed the batch and is about to wake a consumer, or is the consumer awakened
      and has not finished with it. */
  predicate HasBatch(pc: Pc) { pc.PCheck? || pc.PSignal? || pc.CWaitMem? || pc.Drains() }

  /** The same on the crate alone, in terms of what all processes hold together. */
  lemma StaysExactlyWhen(c: Crate, p: Pid, pc: Pc, z: Sums)
    requires Balanced(c, z) && |c.data| == c.capacity && InLoop(c.capacity, pc)
    requires pc.PWrite? ==> c.filled < c.capacity
    ensures Do(c, p, pc).Stay? <==>
              match pc
              case PWaitPermit => c.filled + z.uncounted == c.capacity + z.posted
              case CWaitReady => c.filled < c.capacity || z.awake + z.checking > 0
              case PWaitMem => z.critical > 0
              case CWaitMem => z.critical > 0
              case _ => false
    ensures Do(c, p, pc).Crash? <==> pc.PWrite? && c.filled >= |ITEM_NAMES|
  {
    hide Deposit, TagText;
  }

  lemma SomeHave(s: State)
    ensures var z := SumsOf(s.crate.capacity, s.pcs);
            && (z.critical > 0 <==> exists q :: q in s.pcs && s.pcs[q].Holds())
            && (z.awake + z.checking > 0 <==> exists q :: q in s.pcs && HasBatch(s.pcs[q]))
  {
    SomeoneWeighs(s.pcs, Critical);
    SomeoneWeighs(s.pcs, Awake);
    SomeoneWeighs(s.pcs, Checking);
  }

  /** In every reachable crate: a producer at the top of its loop waits exactly when the
      items counted and those still to be counted use up the capacity and the permits
      that a drain has given back; a consumer at the top of its loop exactly when the
      crate is not full or its one wake-up has been taken, or is still to be posted; for
      the memory one waits exactly when somebody else is inside; nobody waits anywhere
      else. The table of names is overrun exactly by a write into a tenth slot. */
  lemma WaitsExactlyWhen(s: State, p: Pid)
    requires Inv(s) && p in s.pcs
    ensures Next(s, p).Blocked? <==>
              match s.pcs[p]
              case PWaitPermit =>
                var z := SumsOf(s.crate.capacity, s.pcs);
                s.crate.filled + z.uncounted == s.crate.capacity + z.posted
              case CWaitReady =>
                s.crate.filled < s.crate.capacity || exists q :: q in s.pcs && HasBatch(s.pcs[q])
              case PWaitMem => exists q :: q in s.pcs && s.pcs[q].Holds()
              case CWaitMem => exists q :: q in s.pcs && s.pcs[q].Holds()
              case _ => false
    ensures Next(s, p).Fault? <==> s.pcs[p] == PWrite && s.crate.filled >= 9
  {
    hide Do, Balanced, Logged, SumsOf, InLoop, Pc.Holds, HasBatch, Unrecorded, Read;
    var others := Found(s, p);
    SomeHave(s);
    StaysExactlyWhen(s.crate, p, s.pcs[p], SumsOf(s.crate.capacity, s.pcs));
  }

  /** With nobody between the top of the loop and its end, a producer waits exactly for
      a full crate, and a consumer exactly for one that is not. */
  lemma OutsideWaits(s: State, p: Pid)
    requires Inv(s) && p in s.pcs
    requires forall q :: q in s.pcs ==> s.pcs[q] == PWaitPermit || s.pcs[q] == CWaitReady
    ensures Next(s, p).Blocked? <==> (s.pcs[p] == PWaitPermit <==> s.crate.filled == s.crate.capacity)
  {
    WaitsExactlyWhen(s, p);
    WaitingSums(s.crate.capacity, s.pcs);
    hide SumsOf, Logged, Next;
  }
}

/** The same of the System V programs, whose semaphores are taken in groups. */
module SysVCrateWaits {
  import opened Processes
  import opened CrateTypes
  import opened Tally
  import opened PosixCrate
  import opened PosixCrateInvariant
  import opened SysVCrate
  import opened SysVSimulation
  import W = PosixCrateWaits

  /** Past the grouped wait at the top of the loop. */
  predicate Inside(pc: VPc) { pc != VPWait && pc != VCWait }

  /** The mutex is taken exactly when somebody is inside. */
  lemma MutexTaken(v: VState)
    requires Inv(Image(v))
    ensures v.crate.mem == 0 <==> exists q :: q in v.pcs && Inside(v.pcs[q])
  {
    hide Logged, Owed;
    var s := Image(v);
    SomeoneWeighs(s.pcs, Critical);
    if v.crate.mem == 0 {
      var q :| q in s.pcs && Critical(s.pcs[q]) > 0;
      assert q in v.pcs && Inside(v.pcs[q]);
    }
    forall q | q in v.pcs && Inside(v.pcs[q]) ensures v.crate.mem == 0 {
      assert Critical(s.pcs[q]) > 0;
    }
  }

  /** With nobody inside, the semaphores say how full the crate is. */
  lemma OutsideSemaphores(v: VState)
    requires Inv(Image(v)) && forall q :: q in v.pcs ==> !Inside(v.pcs[q])
    ensures v.crate.permits + v.crate.filled == v.crate.capacity && v.crate.filled <= v.crate.capacity
    ensures v.crate.ready == if v.crate.filled == v.crate.capacity then 1 else 0
  {
    var s := Image(v);
    forall q | q in v.pcs ensures OwedOf(v.crate.capacity)(v.pcs[q]) == 0 && (s.pcs[q] == PWaitPermit || s.pcs[q] == CWaitReady) {
      assert !Inside(v.pcs[q]);
    }
    TotalZero(v.pcs, OwedOf(v.crate.capacity));
    WaitingSums(v.crate.capacity, s.pcs);
    hide SumsOf, Logged, InLoop;
  }

  lemma Semaphores(v: VState, p: Pid)
    requires p in v.pcs && v.crate.capacity >= 1
    ensures v.pcs[p] == VPWait ==> (VNext(v, p).VBlocked? <==> v.crate.permits == 0 || v.crate.mem == 0)
    ensures v.pcs[p] == VCWait ==> (VNext(v, p).VBlocked? <==> v.crate.ready == 0 || v.crate.mem == 0)
    ensures Inside(v.pcs[p]) ==> !VNext(v, p).VBlocked?
    ensures VNext(v, p).VFault? ==> v.pcs[p].VPWrite? || v.pcs[p].VCRead?
    ensures v.pcs[p] == VPWrite ==> (VNext(v, p).VFault? <==> v.crate.filled >= |ITEM_NAMES| || v.crate.filled >= |v.crate.data|)
  {
    hide TagText, Deposit;
  }

  /** In every reachable crate: a producer at the top of its loop waits exactly when the
      crate is full or somebody is inside, a consumer exactly when it is not full or
      somebody is inside; nobody waits anywhere else. The table of names is overrun
      exactly by a write into a tenth slot. */
  lemma VWaitsExactlyWhen(v: VState, p: Pid)
    requires Inv(Image(v)) && p in v.pcs
    ensures VNext(v, p).VBlocked? <==>
              match v.pcs[p]
              case VPWait => v.crate.filled == v.crate.capacity || exists q :: q in v.pcs && Inside(v.pcs[q])
              case VCWait => v.crate.filled < v.crate.capacity || exists q :: q in v.pcs && Inside(v.pcs[q])
              case _ => false
    ensures VNext(v, p).VFault? <==> v.pcs[p] == VPWrite && v.crate.filled >= 9
  {
    hide Inv, VNext, Image;
    SomeCapacity(v);
    Semaphores(v, p);
    MutexTaken(v);
    if forall q :: q in v.pcs ==> !Inside(v.pcs[q]) {
      OutsideSemaphores(v);
    }
    FaultsAtTable(v, p);
  }

  lemma FaultsAtTable(v: VState, p: Pid)
    requires Inv(Image(v)) && p in v.pcs
    ensures VNext(v, p).VFault? <==> v.pcs[p] == VPWrite && v.crate.filled >= 9
  {
    hide Inv, VNext, Next, Do;
    SomeCapacity(v);
    Semaphores(v, p);
    ImageOf(v, p);
    assert |ITEM_NAMES| == 9;
    if VNext(v, p).VFault? {
      VFaultImage(v, p);
      W.WaitsExactlyWhen(Image(v), p);
      assert Image(v).pcs[p] == PWrite && Image(v).crate.filled == v.crate.filled;
    }
  }
}

/** Runs of the whole of msgq/custom_queue.cpp: with any number of tokens they are runs of
    the token protocol over plain queues, and they get stuck exactly when those do. */
module TokenSystemRefinement {
  import opened Processes
  import opened Numerals
  import opened MQueue
  import opened RingBuffer
  import F = MQueueFifo
  import Q = MQueueSystem
  import opened TokenProgram
  import opened TokenText
  import opened TokenSystem
  import opened TokenSystemLink
  import P = TokenProtocol
  import L = TokenLimits

  /** Linked to a state of the protocol that `n` tokens can reach. */
  ghost predicate Inv(w: World, a: P.State, c: nat, n: nat) {
    Linked(w, a) && Printing(w, a) && L.Inv(a, c, n)
  }

  predicate CanMove(w: World, p: Pid) { TokenSystem.Next(w, p).Moved? }

  ghost predicate RunsOn(w: World) {
    forall schedule :: TokenSystem.Run(w, schedule).Moved? ==> exists p :: CanMove(TokenSystem.Run(w, schedule).next, p)
  }

  // ---- runs ----

  /** What the processes of the protocol receive they can read, and what they send fits. */
  lemma Reads(a: P.State, c: nat, n: nat, p: Pid)
    requires L.Inv(a, c, n) && p in a.procs
    ensures Readable(a, p) && Sane(a.procs[p])
  {
    hide L.Indices;
  }

  lemma SameWorkers(w: World, a: P.State, p: Pid)
    requires Linked(w, a)
    ensures p in w.workers <==> p in a.procs
    ensures p in a.procs ==> WorkerFits(p, w.workers[p], a.procs[p])
  {
    hide WorkerFits;
  }

  lemma Step(w: World, a: P.State, c: nat, n: nat, p: Pid) returns (meaning: Meaning)
    requires Inv(w, a, c, n) && p in w.workers
    ensures !TokenSystem.Next(w, p).Fault?
    ensures TokenSystem.Next(w, p).Moved? <==> Do(w.rings.Get(Target(Wants(p, w.workers[p].proc))), w.workers[p].call).Go?
    ensures TokenSystem.Next(w, p).Moved? ==>
              var v := TokenSystem.Next(w, p).next;
              && Advances(w, v, p)
              && match meaning
                 case Invisible => Inv(v, a, c, n) && (TookEffect(v.workers[p].call) == TookEffect(w.workers[p].call)
                                                       || F.AtRest(v.workers[p].call))
                 case Protocol(b) => P.Next(a, p) == P.Moved(b) && Inv(v, b, c, n)
                                     && !TookEffect(w.workers[p].call) && TookEffect(v.workers[p].call)
                                     && !F.AtRest(w.workers[p].call)
  {
    hide Linked, Printing, L.Inv, TokenSystem.Next, P.Next, Do, Wants, Target, Readable, Sane, Advances, TookEffect;
    SameWorkers(w, a, p);
    Reads(a, c, n, p);
    meaning := Refines(w, a, p);
    if TokenSystem.Next(w, p).Moved? && meaning.Protocol? {
      L.InvStep(a, p, c, n);
    }
  }

  /** Every run is a run of the token protocol over plain queues, and never faults. */
  lemma {:induction false} RunRefines(w: World, a: P.State, c: nat, n: nat, schedule: seq<Pid>) returns (protocol: seq<Pid>)
    requires Inv(w, a, c, n)
    ensures !TokenSystem.Run(w, schedule).Fault?
    ensures TokenSystem.Run(w, schedule).Moved? ==>
              && P.Run(a, protocol).Moved? && |protocol| <= |schedule|
              && Inv(TokenSystem.Run(w, schedule).next, P.Run(a, protocol).next, c, n)
    decreases |schedule|
  {
    hide Inv, TokenSystem.Next, P.Next, Do, Advances;
    protocol := [];
    if schedule == [] {
    } else if schedule[0] in w.workers {
      var p := schedule[0];
      var meaning := Step(w, a, c, n, p);
      if TokenSystem.Next(w, p).Moved? {
        var v := TokenSystem.Next(w, p).next;
        match meaning
        case Invisible => protocol := RunRefines(v, a, c, n, schedule[1..]);
        case Protocol(b) =>
          var rest := RunRefines(v, b, c, n, schedule[1..]);
          assert ([p] + rest)[1..] == rest;
          protocol := [p] + rest;
      }
    } else {
      Absent(w, schedule[0]);
    }
  }

  lemma Absent(w: World, p: Pid)
    requires p !in w.workers
    ensures TokenSystem.Next(w, p).Blocked?
  {
  }

  lemma {:induction false} SystemRunConcat(w: World, a: seq<Pid>, b: seq<Pid>)
    requires TokenSystem.Run(w, a).Moved?
    ensures TokenSystem.Run(w, a + b) == TokenSystem.Run(TokenSystem.Run(w, a).next, b)
    decreases |a|
  {
    hide TokenSystem.Next;
    if a == [] {
      assert a + b == b;
    } else {
      assert (a + b)[1..] == a[1..] + b;
      SystemRunConcat(TokenSystem.Next(w, a[0]).next, a[1..], b);
    }
  }

  // ---- the queue that a worker is at work on ----

  lemma QueueOf(w: World, a: P.State, c: nat, n: nat, p: Pid) returns (s: Q.State)
    requires Inv(w, a, c, n) && p in w.workers
    ensures var name := Target(Wants(p, w.workers[p].proc));
            && s == Q.State(w.rings.Get(name), CallsOn(w.workers, name))
            && F.Inv(s) && s.ring.cap == a.bound && |Contents(s.ring)| == |a.queues.Get(name)|
            && p in s.calls && s.calls[p] == w.workers[p].call && !s.calls[p].Returned()
            && p in a.procs && WorkerFits(p, w.workers[p], a.procs[p])
  {
    hide F.Inv, Contents, Carries, Sending, Receiving, L.Inv, Printing;
    var name := Target(Wants(p, w.workers[p].proc));
    s := Q.State(w.rings.Get(name), CallsOn(w.workers, name));
    assert QueueFits(w.rings.Get(name), CallsOn(w.workers, name), a.bound, a.queues.Get(name));
    assert WorkerFits(p, w.workers[p], a.procs[p]);
    StillCalling(p, w.workers[p], a.procs[p]);
  }

  /** A worker moves exactly when its call does. */
  lemma MovesWhen(w: World, a: P.State, c: nat, n: nat, p: Pid)
    requires Inv(w, a, c, n) && p in w.workers
    ensures var r, call := w.rings.Get(Target(Wants(p, w.workers[p].proc))), w.workers[p].call;
            CanMove(w, p) <==> !((call.SFull? && r.full == 0) || (call == REmpty && r.empty == 0)
                                 || ((call.SMutex? || call.RMutex?) && r.mutex == 0))
  {
    hide Inv, F.Inv, TokenSystem.Next, Do, Contents, WorkerFits, Wants, Target, Advances;
    var meaning := Step(w, a, c, n, p);
    var s := QueueOf(w, a, c, n, p);
    F.CallStep(s, p);
    F.CallWaits(s, p);
  }

  /** The holder of a mutex is never blocked. */
  lemma HolderMoves(w: World, a: P.State, c: nat, n: nat, p: Pid)
    requires Inv(w, a, c, n) && p in w.workers && !CanMove(w, p)
    requires w.workers[p].call.SMutex? || w.workers[p].call.RMutex?
    ensures exists q :: CanMove(w, q)
  {
    hide Inv, F.Inv, CanMove, Contents, WorkerFits, Wants, Target;
    MovesWhen(w, a, c, n, p);
    var s := QueueOf(w, a, c, n, p);
    var q := F.MutexHeld(s);
    assert w.workers[q].call.Holds();
    MovesWhen(w, a, c, n, q);
  }

  // ---- stuck together ----

  /** When nobody moves, all calls wait for a free slot or for a message. */
  lemma StuckAtRest(w: World, a: P.State, c: nat, n: nat, p: Pid)
    requires Inv(w, a, c, n) && p in w.workers && forall q :: !CanMove(w, q)
    ensures F.AtRest(w.workers[p].call)
  {
    hide Inv, CanMove, Wants, Target;
    MovesWhen(w, a, c, n, p);
    if w.workers[p].call.SMutex? || w.workers[p].call.RMutex? {
      HolderMoves(w, a, c, n, p);
    }
  }

  ghost predicate Rest(w: World) { forall p :: p in w.workers ==> F.AtRest(w.workers[p].call) }

  /** With every call at rest, a worker moves exactly when the protocol does. */
  lemma RestMoves(w: World, a: P.State, c: nat, n: nat, p: Pid)
    requires Inv(w, a, c, n) && Rest(w) && p in w.workers
    ensures CanMove(w, p) <==> L.CanMove(a, p)
  {
    hide F.Inv, CanMove, Contents, Carries, Linked, L.Inv, TokenSystem.Next, Continue, Start, Printing;
    MovesWhen(w, a, c, n, p);
    var s := QueueOf(w, a, c, n, p);
    assert forall q :: q in s.calls ==> F.AtRest(s.calls[q]);
    F.QuietRing(s);
    Reads(a, c, n, p);
  }

  /** Nobody moves in the whole system only where nobody moves in the protocol. */
  lemma StuckTogether(w: World, a: P.State, c: nat, n: nat)
    requires Inv(w, a, c, n) && forall p :: !CanMove(w, p)
    ensures forall p :: !L.CanMove(a, p)
  {
    hide CanMove, L.CanMove, L.Inv, Linked, Printing;
    forall p ensures !L.CanMove(a, p) {
      SameWorkers(w, a, p);
      if p in w.workers {
        forall q | q in w.workers ensures F.AtRest(w.workers[q].call) {
          StuckAtRest(w, a, c, n, q);
        }
        RestMoves(w, a, c, n, p);
      } else {
        ProtocolAbsent(a, p);
      }
    }
  }

  lemma ProtocolAbsent(a: P.State, p: Pid)
    requires p !in a.procs
    ensures !L.CanMove(a, p)
  {
  }

  // ---- runs of the protocol are runs of the system ----

  /** All calls but that of `p` are at rest: nothing keeps it from returning. */
  lemma NobodyInTheWay(w: World, a: P.State, c: nat, n: nat, p: Pid)
    requires Inv(w, a, c, n) && p in w.workers && !F.AtRest(w.workers[p].call)
    requires forall q :: q in w.workers && q != p ==> F.AtRest(w.workers[q].call)
    ensures CanMove(w, p)
  {
    hide Inv, F.Inv, CanMove, Contents, WorkerFits, Wants, Target;
    MovesWhen(w, a, c, n, p);
    if !CanMove(w, p) {
      var s := QueueOf(w, a, c, n, p);
      var q := F.MutexHeld(s);
    }
  }

  /** A call that can go on, with all others at rest, runs through to its return, and the
      protocol has then taken the one step that it stands for. */
  lemma {:induction false} RunsThrough(w: World, a: P.State, c: nat, n: nat, p: Pid) returns (schedule: seq<Pid>, v: World)
    requires Inv(w, a, c, n) && p in w.workers && CanMove(w, p)
    requires forall q :: q in w.workers && q != p ==> F.AtRest(w.workers[q].call)
    ensures TokenSystem.Run(w, schedule) == TokenSystem.Moved(v) && Rest(v) && v.workers.Keys == w.workers.Keys
    ensures TookEffect(w.workers[p].call) ==> Inv(v, a, c, n)
    ensures !TookEffect(w.workers[p].call) ==> P.Next(a, p).Moved? && Inv(v, P.Next(a, p).next, c, n)
    decreases StepsLeft(w.workers[p].call)
  {
    hide Inv, TokenSystem.Next, P.Next, Do, Wants, Target, StepsLeft, TookEffect;
    var meaning := Step(w, a, c, n, p);
    var u := TokenSystem.Next(w, p).next;
    var b := if meaning.Protocol? then meaning.b else a;
    var rest;
    if F.AtRest(u.workers[p].call) {
      rest, v := [], u;
    } else {
      NobodyInTheWay(u, b, c, n, p);
      rest, v := RunsThrough(u, b, c, n, p);
    }
    assert ([p] + rest)[1..] == rest;
    schedule := [p] + rest;
    AtRestMeansTook(u.workers[p].call);
  }

  lemma AtRestMeansTook(c: Call)
    ensures F.AtRest(c) ==> !TookEffect(c)
  {
  }

  /** What the protocol can do the whole system can do, one uninterrupted call after the other. */
  lemma {:induction false} Replays(w: World, a: P.State, c: nat, n: nat, protocol: seq<Pid>) returns (schedule: seq<Pid>, v: World)
    requires Inv(w, a, c, n) && Rest(w) && P.Run(a, protocol).Moved?
    ensures TokenSystem.Run(w, schedule) == TokenSystem.Moved(v)
    ensures Rest(v) && Inv(v, P.Run(a, protocol).next, c, n)
    decreases |protocol|
  {
    hide Inv, TokenSystem.Next, P.Next, TookEffect, CanMove;
    if protocol == [] {
      schedule, v := [], w;
    } else {
      var p := protocol[0];
      Present(w, a, c, n, p);
      RestMoves(w, a, c, n, p);
      AtRestMeansTook(w.workers[p].call);
      var first, u := RunsThrough(w, a, c, n, p);
      var rest;
      rest, v := Replays(u, P.Next(a, p).next, c, n, protocol[1..]);
      SystemRunConcat(w, first, rest);
      schedule := first + rest;
    }
  }

  lemma Present(w: World, a: P.State, c: nat, n: nat, p: Pid)
    requires Inv(w, a, c, n) && P.Next(a, p).Moved?
    ensures p in w.workers && L.CanMove(a, p)
  {
    hide L.Inv, Printing;
    SameWorkers(w, a, p);
  }

  /** The whole system runs on for ever exactly when the protocol over plain queues does. */
  lemma SameFate(w: World, a: P.State, c: nat, n: nat)
    requires Inv(w, a, c, n) && Rest(w)
    ensures RunsOn(w) <==> L.RunsOn(a)
  {
    hide Inv, CanMove, L.CanMove, TokenSystem.Run, P.Run, Rest;
    if L.RunsOn(a) {
      forall schedule | TokenSystem.Run(w, schedule).Moved?
        ensures exists p :: CanMove(TokenSystem.Run(w, schedule).next, p)
      {
        var protocol := RunRefines(w, a, c, n, schedule);
        var v := TokenSystem.Run(w, schedule).next;
        if !exists p :: CanMove(v, p) {
          StuckTogether(v, P.Run(a, protocol).next, c, n);
        }
      }
    } else {
      var protocol :| P.Run(a, protocol).Moved? && !exists p :: L.CanMove(P.Run(a, protocol).next, p);
      var schedule, v := Replays(w, a, c, n, protocol);
      forall p ensures !CanMove(v, p) {
        if p in v.workers { RestMoves(v, P.Run(a, protocol).next, c, n, p); } else { AbsentStays(v, p); }
      }
      assert TokenSystem.Run(w, schedule).Moved?;
    }
  }

  lemma AbsentStays(w: World, p: Pid)
    requires p !in w.workers
    ensures !CanMove(w, p)
  {
  }

  // ---- from the start ----

  /** Fresh queues, and every process in front of its first queue call: those started
      with "init" in front of the initial send, the others at the top of their loops. */
  ghost predicate Begun(w: World, a: P.State) {
    && w.workers.Keys == a.procs.Keys && w.printed == []
    && (forall name :: Fresh(w.rings.Get(name)) && w.rings.Get(name).cap == a.bound
                       && w.rings.Get(name).size == MAX_MSG_SIZE)
    && (forall p :: p in a.procs ==> WorkerFits(p, w.workers[p], a.procs[p]) && F.AtRest(w.workers[p].call))
  }

  /** A queue as init_queue() makes it. */
  function NewRing(cap: nat): Ring {
    Ring(cap, MAX_MSG_SIZE, 0, 0, seq(cap * MAX_MSG_SIZE, (_: nat) => '\0'), cap, 0, 1, [], [])
  }

  /** Whoever is started with "init" and whoever without: there is such a beginning, with
      the initial message already printed into the buffers of the first. */
  lemma Begins(a: P.State, c: nat, n: nat) returns (w: World)
    requires L.Starting(a, c, n, 0) && c <= |ITEM_NAMES| && a.bound >= 1
    requires forall p :: p in a.procs ==> p < Power10(10)
    ensures Begun(w, a)
  {
    hide Start, WorkerFits, Power10, L.Starting, NewRing, Fresh;
    var buffer := seq(MAX_MSG_SIZE, (_: nat) => '\0');
    var r := NewRing(a.bound);
    NewRingFresh(a.bound);
    forall p | p in a.procs
      ensures Start(p, a.procs[p], buffer).Ready?
      ensures var x := Start(p, a.procs[p], buffer).worker; WorkerFits(p, x, a.procs[p]) && F.AtRest(x.call)
    {
      StarterSane(a, c, n, p);
      StartFits(p, a.procs[p], buffer);
    }
    w := World(Rings(r, r, r), map p | p in a.procs :: Start(p, a.procs[p], buffer).worker, []);
  }

  lemma NewRingFresh(cap: nat)
    requires cap >= 1
    ensures Fresh(NewRing(cap)) && NewRing(cap).cap == cap && NewRing(cap).size == MAX_MSG_SIZE
  {
  }

  lemma StarterSane(a: P.State, c: nat, n: nat, p: Pid)
    requires L.Starting(a, c, n, 0) && c <= |ITEM_NAMES| && p in a.procs
    ensures Sane(a.procs[p])
  {
  }

  lemma FreshFits(r: Ring, calls: map<Pid, Call>, bound: nat)
    requires Fresh(r) && r.cap == bound && r.size == MAX_MSG_SIZE
    requires forall p :: p in calls ==> F.AtRest(calls[p]) && (calls[p].SFull? ==> |calls[p].msg| == MAX_MSG_SIZE)
    ensures QueueFits(r, calls, bound, [])
  {
    FreshOrdered(r);
    hide Ordered, F.SumsOf, F.AtRest, Contents;
    F.RestSums(calls);
    NothingCarried(r);
    FreshKnown(r, calls);
  }

  lemma NothingCarried(r: Ring)
    requires Fresh(r)
    ensures Contents(r) == []
  {
  }

  lemma FreshKnown(r: Ring, calls: map<Pid, Call>)
    requires r.size == MAX_MSG_SIZE
    requires forall p :: p in calls ==> F.AtRest(calls[p]) && (calls[p].SFull? ==> |calls[p].msg| == MAX_MSG_SIZE)
    ensures forall p :: p in calls ==> F.Knows(r, calls[p])
  {
  }

  lemma SendBuffer(p: Pid, x: Worker, proc: Proc)
    requires WorkerFits(p, x, proc) && x.call.SFull?
    ensures |x.call.msg| == MAX_MSG_SIZE
  {
    hide Text, Power10, Continue, Start;
  }

  lemma StartQueue(w: World, a: P.State, name: Name)
    requires Begun(w, a)
    ensures QueueFits(w.rings.Get(name), CallsOn(w.workers, name), a.bound, [])
  {
    hide Fresh, WorkerFits, QueueFits, Wants, Target;
    var calls := CallsOn(w.workers, name);
    forall p | p in calls ensures F.AtRest(calls[p]) && (calls[p].SFull? ==> |calls[p].msg| == MAX_MSG_SIZE) {
      if w.workers[p].call.SFull? { SendBuffer(p, w.workers[p], a.procs[p]); }
    }
    FreshFits(w.rings.Get(name), calls, a.bound);
  }

  lemma StartEmpty(a: P.State, c: nat, n: nat, name: Name)
    requires L.Starting(a, c, n, 0)
    ensures a.queues.Get(name) == [] && a.delivered == []
  {
    assert seq(0, (_: nat) => Token(c, 0)) == [];
  }

  lemma StartLinked(w: World, a: P.State, c: nat, n: nat)
    requires Begun(w, a) && L.Starting(a, c, n, 0) && c <= |ITEM_NAMES|
    ensures Inv(w, a, c, n) && Rest(w)
  {
    hide Fresh, WorkerFits, L.Inv, QueueFits, L.Starting;
    L.InvStarting(a, c, n);
    StartEmpty(a, c, n, Crate);
    forall name ensures QueueFits(w.rings.Get(name), CallsOn(w.workers, name), a.bound, a.queues.Get(name)) {
      StartQueue(w, a, name);
      StartEmpty(a, c, n, name);
    }
    NothingYet(w, a);
  }

  lemma NothingYet(w: World, a: P.State)
    requires w.printed == [] && a.delivered == []
    requires forall p :: p in w.workers ==> F.AtRest(w.workers[p].call)
    ensures Printing(w, a)
  {
  }

  /** With `n` processes started with "init", a producer and a consumer, every schedule of
      the whole system can go on for ever exactly when there is a token and the crate
      queue has room for the unfinished batches of all tokens. */
  lemma SystemRunsOnExactlyWhen(w: World, a: P.State, c: nat, n: nat, producer: Pid, consumer: Pid)
    requires Begun(w, a) && L.Starting(a, c, n, 0) && c <= |ITEM_NAMES| && (n <= a.bound || c >= 2)
    requires producer in a.procs && a.procs[producer].IsProducer()
    requires consumer in a.procs && !a.procs[consumer].IsProducer()
    ensures RunsOn(w) <==> 1 <= n && n * (c - 1) < a.bound
  {
    StartLinked(w, a, c, n);
    hide Inv, Rest, RunsOn, L.RunsOn, Begun;
    SameFate(w, a, c, n);
    L.RunsOnFromStart(a, c, n, producer, consumer);
  }
}

/** The whole system with one token: nothing ever blocks but a wait for a message at the
    top of a loop, and lines are printed in the order of delivery. */
module OneTokenSystem {
  import opened Processes
  import opened Tally
  import opened Numerals
  import opened MQueue
  import opened RingBuffer
  import F = MQueueFifo
  import opened TokenProgram
  import opened TokenText
  import opened TokenSystem
  import opened TokenSystemLink
  import opened TokenSystemRefinement
  import P = TokenProtocol
  import L = TokenLimits
  import TokenPhases

  // ---- one call under way at a time ----

  lemma StartProc(p: Pid, proc: Proc, buffer: Msg)
    ensures Start(p, proc, buffer).Ready? ==> Start(p, proc, buffer).worker.proc == proc
  {
    hide Text;
  }

  /** A process that has received something is not at the top of its loop. */
  lemma BusyAfterReceive(p: Pid, x: Worker, proc: Proc)
    requires WorkerFits(p, x, proc) && Sane(proc) && (x.call.RUnlock? || x.call.RFull?)
    ensures !proc.Idle()
  {
    var b := x.call.msg;
    StartFits(p, proc, b);
    hide Start, Text, Carries, Continue, Sane, Power10;
    GoesOnBusy(p, x.proc, b);
    assert Continue(p, x.proc, b) == Start(p, proc, b);
  }

  /** Where a process goes on after a receive. */
  lemma GoesOnBusy(p: Pid, proc: Proc, b: Msg)
    ensures Continue(p, proc, b).Ready? ==> !Continue(p, proc, b).worker.proc.Idle()
  {
    hide Start, ScanTwo, CString;
    forall other ensures Start(p, other, b).Ready? ==> Start(p, other, b).worker.proc == other {
      StartProc(p, other, b);
    }
  }

  predicate Control(name: Name) { name == Producers || name == Consumers }

  /** A call under way accounts for a token: in its process's hands, or in a control queue. */
  lemma Accounts(p: Pid, x: Worker, proc: Proc)
    requires WorkerFits(p, x, proc) && Sane(proc) && !F.AtRest(x.call)
    ensures !proc.Idle() || (F.Touched(x.call) == 1 && Control(Target(Wants(p, x.proc))))
  {
    if x.call.RUnlock? || x.call.RFull? {
      BusyAfterReceive(p, x, proc);
    }
    hide Carries, Continue, Start;
  }

  lemma ControlHolds(w: World, a: P.State, c: nat, n: nat, p: Pid)
    requires Inv(w, a, c, n) && p in w.workers && Control(Target(Wants(p, w.workers[p].proc)))
    ensures L.Tokens(a.queues) >= |a.queues.Get(Target(Wants(p, w.workers[p].proc)))| >= F.Touched(w.workers[p].call)
  {
    hide Inv, F.Inv, Contents, WorkerFits, Wants, Target;
    var s := QueueOf(w, a, c, n, p);
    F.HeldAtLeast(s, p);
  }

  lemma ControlHoldsBoth(w: World, a: P.State, c: nat, n: nat, p: Pid, q: Pid)
    requires Inv(w, a, c, n) && p in w.workers && q in w.workers && p != q
    requires Control(Target(Wants(p, w.workers[p].proc))) && Control(Target(Wants(q, w.workers[q].proc)))
    ensures L.Tokens(a.queues) >= F.Touched(w.workers[p].call) + F.Touched(w.workers[q].call)
  {
    ControlHolds(w, a, c, n, p);
    ControlHolds(w, a, c, n, q);
    hide Inv, F.Inv, Contents, WorkerFits, Wants;
    if Target(Wants(p, w.workers[p].proc)) == Target(Wants(q, w.workers[q].proc)) {
      var s := QueueOf(w, a, c, n, p);
      assert s.calls[q] == w.workers[q].call;
      F.HeldForBoth(s, p, q);
    }
  }

  lemma WorkerPart(w: World, a: P.State, c: nat, n: nat, p: Pid)
    requires Inv(w, a, c, n) && p in w.workers
    ensures p in a.procs && WorkerFits(p, w.workers[p], a.procs[p]) && Sane(a.procs[p])
    ensures L.Tokens(a.queues) + Total(a.procs, L.Holding) == n
  {
    hide WorkerFits, QueueFits, Printing;
    Reads(a, c, n, p);
  }

  /** With one token nobody is past the top of the loop, or inside a call, while another is inside one. */
  lemma Alone(w: World, a: P.State, c: nat, p: Pid, q: Pid)
    requires Inv(w, a, c, 1) && p in w.workers && q in w.workers && p in a.procs
    requires !F.AtRest(w.workers[q].call) && (!a.procs[p].Idle() || !F.AtRest(w.workers[p].call))
    ensures p == q
  {
    hide Inv, WorkerFits, Sane, Wants, Target, Control, L.Tokens;
    if p != q {
      WorkerPart(w, a, c, 1, p);
      WorkerPart(w, a, c, 1, q);
      Accounts(q, w.workers[q], a.procs[q]);
      TotalRemove(a.procs, L.Holding, p);
      TotalRemove(a.procs - {p}, L.Holding, q);
      if !a.procs[p].Idle() {
        if a.procs[q].Idle() { ControlHolds(w, a, c, 1, q); }
      } else {
        Accounts(p, w.workers[p], a.procs[p]);
        ControlHolds(w, a, c, 1, p);
        if a.procs[q].Idle() { ControlHoldsBoth(w, a, c, 1, p, q); }
      }
    }
  }

  // ---- nothing else blocks ----

  /** In the protocol only a process at the top of its loop is ever blocked. */
  ghost predicate OnlyIdleWaits(a: P.State) {
    forall p :: p in a.procs && !a.procs[p].Idle() ==> P.Next(a, p).Moved?
  }

  lemma {:induction false} OnlyIdleWaitsRun(a: P.State, c: nat, protocol: seq<Pid>)
    requires L.Starting(a, c, 1, 0) && c <= a.bound && c <= |ITEM_NAMES| && P.Run(a, protocol).Moved?
    ensures OnlyIdleWaits(P.Run(a, protocol).next)
  {
    if protocol == [] {
      forall p | p in a.procs && !a.procs[p].Idle() ensures P.Next(a, p).Moved? {
        L.StarterSends(a, c, 1, 0, p);
      }
    } else {
      var b := P.Next(a, protocol[0]).next;
      FirstStep(a, c, protocol[0]);
      TokenPhases.AtInitial(b, c);
      hide P.Next, TokenPhases.At, P.Initial;
      var rounds, st := TokenPhases.AtRun(b, c, 0, TokenPhases.Waiting(0), protocol[1..]);
      var t := P.Run(b, protocol[1..]).next;
      forall p | p in t.procs && !t.procs[p].Idle() ensures P.Next(t, p).Moved? {
        TokenPhases.OnlyIdleBlocks(t, c, rounds, st, p);
      }
    }
  }

  /** The first step of the protocol sends the initial message. */
  lemma FirstStep(a: P.State, c: nat, p: Pid)
    requires L.Starting(a, c, 1, 0) && c <= a.bound && c <= |ITEM_NAMES| && P.Next(a, p).Moved?
    ensures P.Initial(P.Next(a, p).next, c)
  {
    assert seq(0, (_: nat) => Token(c, 0)) == [];
    assert p in a.procs && !a.procs[p].Idle();
    L.StarterSends(a, c, 1, 0, p);
    L.BoundKeptStep(a, p);
    var b := P.Next(a, p).next;
    hide P.Next;
    assert seq(1, (_: nat) => Token(c, 0)) == [Token(c, 0)];
    ZeroTotal(b.procs, L.Holding);
    forall q | q in b.procs ensures b.procs[q].Idle() {
      assert L.Holding(b.procs[q]) == 0;
    }
  }

  /** What a process at rest in a call is about. */
  lemma RestingWorker(p: Pid, x: Worker, proc: Proc)
    requires WorkerFits(p, x, proc)
    ensures x.call.SFull? ==> Wants(p, x.proc).Send? && proc == x.proc && !proc.Idle()
    ensures x.call == REmpty ==> Wants(p, x.proc).Receive? && proc == x.proc && (proc.TakeItem? || proc.Idle())
  {
    hide Carries, Continue, Start;
  }

  lemma MoverNeeds(a: P.State, p: Pid)
    requires p in a.procs && P.Next(a, p).Moved?
    ensures var request := Wants(p, a.procs[p]);
            && (request.Send? ==> |a.queues.Get(Target(request))| < a.bound)
            && (request.Receive? ==> |a.queues.Get(Target(request))| > 0)
  {
  }

  lemma WaitsAtTop(w: World, a: P.State, c: nat, p: Pid)
    requires Inv(w, a, c, 1) && OnlyIdleWaits(a) && p in w.workers && !CanMove(w, p)
    ensures w.workers[p].call == REmpty && w.workers[p].proc.Idle()
  {
    hide Inv, CanMove, F.Inv, Contents, WorkerFits, Wants, Target, P.Next, Sane;
    WorkerPart(w, a, c, 1, p);
    MovesWhen(w, a, c, 1, p);
    RestingWorker(p, w.workers[p], a.procs[p]);
    var s := QueueOf(w, a, c, 1, p);
    var call := w.workers[p].call;
    if call.SMutex? || call.RMutex? {
      var q := F.MutexHeld(s);
      SameCall(w, p, q);
      Alone(w, a, c, p, q);
    } else if !a.procs[p].Idle() {
      MoverNeeds(a, p);
      var q := F.SomeoneUnderWay(s);
      SameCall(w, p, q);
      Alone(w, a, c, p, q);
    }
  }

  lemma SameCall(w: World, p: Pid, q: Pid)
    requires p in w.workers && q in CallsOn(w.workers, Target(Wants(p, w.workers[p].proc)))
    requires !F.AtRest(CallsOn(w.workers, Target(Wants(p, w.workers[p].proc)))[q])
    ensures q in w.workers && w.workers[q].call == CallsOn(w.workers, Target(Wants(p, w.workers[p].proc)))[q]
  {
    hide Wants, Target;
  }

  // ---- lines in order ----

  ghost predicate Delivered(printed: seq<Printed>, log: seq<Delivery>) {
    && |printed| == |log|
    && forall i :: 0 <= i < |log| ==> printed[i].reader == log[i].reader && printed[i].text == ItemText(log[i].item)
  }

  /** The lines printed are the items delivered, in order, but for at most one item that
      its reader has taken out and not yet printed. */
  ghost predicate InOrder(w: World, log: seq<Delivery>, last: seq<Printed>) {
    && |last| <= 1 && Delivered(w.printed + last, log)
    && (forall i :: 0 <= i < |last| ==> last[i].reader in w.workers)
    && forall p :: p in w.workers ==> InHand(w.workers[p]) == PrintedBy(last, p)
  }

  lemma PrintedShape(w: World, p: Pid)
    requires TokenSystem.Next(w, p).Moved?
    ensures var v := TokenSystem.Next(w, p).next;
            p in v.workers && (v.printed == w.printed
            || (F.AtRest(v.workers[p].call)
                && exists t: string :: v.printed == w.printed + [Printed(p, t)]))
  {
    hide Do, CString, Text;
  }

  lemma LogShape(a: P.State, p: Pid)
    requires P.Next(a, p).Moved?
    ensures var b := P.Next(a, p).next;
            b.delivered == a.delivered || exists m :: b.delivered == a.delivered + [Delivery(p, m)]
  {
    if p in a.procs && Wants(p, a.procs[p]).Receive? {
      var m := a.queues.Get(Wants(p, a.procs[p]).from)[0];
      assert P.Next(a, p).next.delivered == Log(a.delivered, p, a.procs[p], m);
    }
  }

  lemma HandOf(w: World, a: P.State, p: Pid)
    requires Printing(w, a) && p in w.workers
    ensures PrintedBy(w.printed, p) + InHand(w.workers[p]) == DeliveredTo(a.delivered, p)
    ensures |InHand(w.workers[p])| <= 1 && (InHand(w.workers[p]) != [] ==> !F.AtRest(w.workers[p].call))
  {
    hide PrintedBy, DeliveredTo, CString;
  }

  lemma OneLine(r: Pid, t: string, p: Pid)
    ensures PrintedBy([Printed(r, t)], p) == if r == p then [t] else []
    ensures PrintedBy([], p) == []
  {
    assert [Printed(r, t)][..0] == [];
  }

  /** Nobody else has an item in hand while `p` is inside a call. */
  lemma NoLast(w: World, a: P.State, c: nat, p: Pid, last: seq<Printed>)
    requires Inv(w, a, c, 1) && p in w.workers && !F.AtRest(w.workers[p].call) && InHand(w.workers[p]) == []
    requires InOrder(w, a.delivered, last)
    ensures last == []
  {
    hide Linked, L.Inv, InHand, Printing;
    if last != [] {
      var r := last[0].reader;
      assert last == [Printed(r, last[0].text)];
      OneLine(r, last[0].text, r);
      HandOf(w, a, r);
      assert p in a.procs by { WorkerPart(w, a, c, 1, p); }
      Alone(w, a, c, p, r);
    }
  }

  lemma TakesInHand(w: World, v: World, a: P.State, b: P.State, c: nat, p: Pid, last: seq<Printed>, m: Message)
    returns (last': seq<Printed>)
    requires Inv(w, a, c, 1) && Printing(v, b) && p in w.workers && !F.AtRest(w.workers[p].call)
    requires v.workers.Keys == w.workers.Keys && v.workers == w.workers[p := v.workers[p]]
    requires v.printed == w.printed && b.delivered == a.delivered + [Delivery(p, m)]
    requires InOrder(w, a.delivered, last)
    ensures InOrder(v, b.delivered, last')
  {
    hide Linked, L.Inv, InHand, Printing, ItemText;
    HandOf(w, a, p);
    HandOf(v, b, p);
    DeliveredMore(a.delivered, p, m, p);
    Cancel(PrintedBy(w.printed, p), InHand(w.workers[p]) + [ItemText(m)], InHand(v.workers[p]));
    NoLast(w, a, c, p, last);
    last' := [Printed(p, ItemText(m))];
    forall q | q in v.workers ensures InHand(v.workers[q]) == PrintedBy(last', q) {
      OneLine(p, ItemText(m), q);
    }
    assert w.printed + [] == w.printed;
  }

  lemma Cancel(a: seq<string>, b: seq<string>, c: seq<string>)
    ensures a + b == a + c ==> b == c
    ensures forall x: seq<string>, y: seq<string> :: b == x + y ==> a + x + y == a + b
  {
    if a + b == a + c {
      assert b == (a + b)[|a|..];
      assert c == (a + c)[|a|..];
    }
  }

  lemma PrintsFromHand(w: World, v: World, a: P.State, p: Pid, last: seq<Printed>, t: string)
    requires Printing(w, a) && Printing(v, a) && p in w.workers
    requires v.workers.Keys == w.workers.Keys && v.workers == w.workers[p := v.workers[p]]
    requires v.printed == w.printed + [Printed(p, t)] && InOrder(w, a.delivered, last)
    ensures InOrder(v, a.delivered, [])
  {
    hide InHand, Printing, ItemText;
    HandOf(w, a, p);
    HandOf(v, a, p);
    PrintedMore(w.printed, p, t, p);
    var before := PrintedBy(w.printed, p);
    assert before + [t] + InHand(v.workers[p]) == before + ([t] + InHand(v.workers[p]));
    Cancel(before, [t] + InHand(v.workers[p]), InHand(w.workers[p]));
    assert InHand(w.workers[p]) == [t] && InHand(v.workers[p]) == [];
    OneLine(p, t, p);
    assert last != [];
    OneLine(last[0].reader, last[0].text, p);
    assert last == [Printed(p, t)];
    assert v.printed + [] == w.printed + last;
    forall q | q in v.workers ensures InHand(v.workers[q]) == PrintedBy([], q) {
      OneLine(p, t, q);
    }
  }

  lemma SameHand(w: World, v: World, a: P.State, b: P.State, p: Pid, last: seq<Printed>)
    requires Printing(w, a) && Printing(v, b) && p in w.workers
    requires v.workers.Keys == w.workers.Keys && v.workers == w.workers[p := v.workers[p]]
    requires v.printed == w.printed && b.delivered == a.delivered && InOrder(w, a.delivered, last)
    ensures InOrder(v, b.delivered, last)
  {
    hide InHand, Printing, ItemText;
    HandOf(w, a, p);
    HandOf(v, b, p);
    Cancel(PrintedBy(w.printed, p), InHand(w.workers[p]), InHand(v.workers[p]));
  }

  lemma OrderStep(w: World, a: P.State, c: nat, p: Pid, last: seq<Printed>) returns (b: P.State, moved: bool, last': seq<Printed>)
    requires Inv(w, a, c, 1) && InOrder(w, a.delivered, last) && p in w.workers && CanMove(w, p)
    ensures Inv(TokenSystem.Next(w, p).next, b, c, 1) && InOrder(TokenSystem.Next(w, p).next, b.delivered, last')
    ensures if moved then P.Next(a, p) == P.Moved(b) else b == a
  {
    hide Linked, L.Inv, TokenSystem.Next, P.Next, InOrder, Printing, InHand, Do, Wants, Target, StepsLeft;
    var meaning := Step(w, a, c, 1, p);
    var v := TokenSystem.Next(w, p).next;
    PrintedShape(w, p);
    moved := meaning.Protocol?;
    match meaning
    case Protocol(t) =>
      b := t;
      LogShape(a, p);
      if b.delivered == a.delivered {
        SameHand(w, v, a, b, p, last);
        last' := last;
      } else {
        var m :| b.delivered == a.delivered + [Delivery(p, m)];
        last' := TakesInHand(w, v, a, b, c, p, last, m);
      }
    case Invisible =>
      b := a;
      if v.printed == w.printed {
        SameHand(w, v, a, a, p, last);
        last' := last;
      } else {
        var t: string :| v.printed == w.printed + [Printed(p, t)];
        PrintsFromHand(w, v, a, p, last, t);
        last' := [];
      }
  }

  /** `a` is what is left of `b` when some of it is left out. */
  predicate Within(a: seq<Pid>, b: seq<Pid>)
    decreases |b|
  {
    a == [] || (b != [] && ((a[0] == b[0] && Within(a[1..], b[1..])) || Within(a, b[1..])))
  }

  lemma {:induction false} OrderRun(w: World, a: P.State, c: nat, schedule: seq<Pid>, last: seq<Printed>)
    returns (protocol: seq<Pid>, last': seq<Printed>)
    requires Inv(w, a, c, 1) && InOrder(w, a.delivered, last) && TokenSystem.Run(w, schedule).Moved?
    ensures P.Run(a, protocol).Moved?
    ensures var v, b := TokenSystem.Run(w, schedule).next, P.Run(a, protocol).next;
            Inv(v, b, c, 1) && InOrder(v, b.delivered, last')
    ensures Within(protocol, schedule)
    decreases |schedule|
  {
    hide Inv, TokenSystem.Next, P.Next, InOrder;
    if schedule == [] {
      protocol, last' := [], last;
    } else {
      var p := schedule[0];
      MoverPresent(w, p);
      var b, moved, next := OrderStep(w, a, c, p, last);
      protocol, last' := OrderRun(TokenSystem.Next(w, p).next, b, c, schedule[1..], next);
      if moved {
        assert ([p] + protocol)[1..] == protocol;
        protocol := [p] + protocol;
      }
    }
  }

  lemma MoverPresent(w: World, p: Pid)
    requires TokenSystem.Next(w, p).Moved?
    ensures p in w.workers && CanMove(w, p)
  {
  }

  /** In every run with one token: nothing faults; a process that cannot step waits at the
      top of its loop, so no wait for a free slot, for a mutex or for an item ever blocks;
      and the lines printed are the items delivered by a run of the protocol, in order,
      but for at most one that its reader has in hand. */
  lemma NothingElseBlocks(w: World, a: P.State, c: nat, schedule: seq<Pid>)
    returns (protocol: seq<Pid>, last: seq<Printed>)
    requires Begun(w, a) && L.Starting(a, c, 1, 0) && c <= a.bound && c <= |ITEM_NAMES|
    ensures !TokenSystem.Run(w, schedule).Fault?
    ensures TokenSystem.Run(w, schedule).Moved? ==>
              var v := TokenSystem.Run(w, schedule).next;
              && P.Run(a, protocol).Moved? && Within(protocol, schedule)
              && |last| <= 1 && Delivered(v.printed + last, P.Run(a, protocol).next.delivered)
              && forall p :: p in v.workers ==>
                   && !TokenSystem.Next(v, p).Fault?
                   && (TokenSystem.Next(v, p).Blocked? ==> v.workers[p].call == REmpty && v.workers[p].proc.Idle())
  {
    StartLinked(w, a, c, 1);
    OrderStart(w, a, c);
    hide Inv, TokenSystem.Next, P.Next, Begun, L.Starting, OnlyIdleWaits;
    var any := RunRefines(w, a, c, 1, schedule);
    protocol, last := [], [];
    if TokenSystem.Run(w, schedule).Moved? {
      protocol, last := OrderRun(w, a, c, schedule, []);
      var v, b := TokenSystem.Run(w, schedule).next, P.Run(a, protocol).next;
      OnlyIdleWaitsRun(a, c, protocol);
      forall p | p in v.workers
        ensures !TokenSystem.Next(v, p).Fault?
        ensures TokenSystem.Next(v, p).Blocked? ==> v.workers[p].call == REmpty && v.workers[p].proc.Idle()
      {
        var meaning := Step(v, b, c, 1, p);
        if TokenSystem.Next(v, p).Blocked? { WaitsAtTop(v, b, c, p); }
      }
    }
  }

  lemma OrderStart(w: World, a: P.State, c: nat)
    requires Begun(w, a) && L.Starting(a, c, 1, 0)
    ensures InOrder(w, a.delivered, [])
  {
    hide WorkerFits, Fresh;
    assert w.printed + [] == [];
    forall p | p in w.workers ensures InHand(w.workers[p]) == PrintedBy([], p) {
    }
  }

  // ---- what the lines say ----

  /** Line `n` of the output, when the protocol takes the steps of `protocol`. */
  ghost predicate LineSays(printed: seq<Printed>, c: nat, protocol: seq<Pid>, n: nat)
    requires 1 <= c <= |ITEM_NAMES| && n < |printed|
  {
    && TokenPhases.PutAt(c, n) < TokenPhases.TakenAt(c, n) < |protocol| - 1
    && printed[n].reader == protocol[1 + TokenPhases.TakenAt(c, n)]
    && printed[n].text == "(" + Decimal(protocol[1 + TokenPhases.PutAt(c, n)]) + "): " + ITEM_NAMES[n % c]
  }

  lemma DeliverySays(a: P.State, c: nat, protocol: seq<Pid>, n: nat)
    requires L.Starting(a, c, 1, 0) && c <= a.bound && c <= |ITEM_NAMES| && P.Run(a, protocol).Moved?
    requires n < |P.Run(a, protocol).next.delivered|
    ensures 1 <= c && TokenPhases.PutAt(c, n) < TokenPhases.TakenAt(c, n) < |protocol| - 1
    ensures P.Run(a, protocol).next.delivered[n]
            == Delivery(protocol[1 + TokenPhases.TakenAt(c, n)], Item(protocol[1 + TokenPhases.PutAt(c, n)], n % c))
  {
    hide P.Next;
    assert protocol != [] && 1 <= c;
    FirstStep(a, c, protocol[0]);
    hide L.Starting, P.Initial, P.Run, TokenPhases.PutAt, TokenPhases.TakenAt;
    var b := P.Next(a, protocol[0]).next;
    assert P.Run(a, protocol) == P.Run(b, protocol[1..]) by { RunAfter(a, protocol); }
    TokenPhases.WhoPutWhoTook(b, c, protocol[1..], n);
  }

  lemma RunAfter(a: P.State, protocol: seq<Pid>)
    requires protocol != [] && P.Run(a, protocol).Moved?
    ensures P.Next(a, protocol[0]).Moved? && P.Run(a, protocol) == P.Run(P.Next(a, protocol[0]).next, protocol[1..])
  {
    hide P.Next;
  }

  /** In every run with one token the n-th line printed is "(pid): name" with name number
      n modulo the capacity, the id of the process that put the item in, and printed by the
      process that took it out: the steps PutAt and TakenAt, after the first one, of the
      steps of the schedule at which calls take effect. */
  lemma LinesPrinted(w: World, a: P.State, c: nat, schedule: seq<Pid>) returns (protocol: seq<Pid>)
    requires Begun(w, a) && L.Starting(a, c, 1, 0) && c <= a.bound && c <= |ITEM_NAMES|
    requires TokenSystem.Run(w, schedule).Moved?
    ensures Within(protocol, schedule) && c >= 1
    ensures var printed := TokenSystem.Run(w, schedule).next.printed;
            forall n :: 0 <= n < |printed| ==> LineSays(printed, c, protocol, n)
  {
    assert c >= 1;
    hide Begun, L.Starting, TokenSystem.Run, TokenSystem.Next, P.Next, P.Run, Within, ItemText;
    var last;
    protocol, last := NothingElseBlocks(w, a, c, schedule);
    var printed, log := TokenSystem.Run(w, schedule).next.printed, P.Run(a, protocol).next.delivered;
    forall n | 0 <= n < |printed| ensures LineSays(printed, c, protocol, n) {
      assert printed[n] == (printed + last)[n];
      DeliverySays(a, c, protocol, n);
      TextOfItem(log[n].item);
    }
  }

  lemma TextOfItem(m: Message)
    requires m.Item? && m.index < |ITEM_NAMES|
    ensures ItemText(m) == "(" + Decimal(m.pid) + "): " + ITEM_NAMES[m.index]
  {
    hide Decimal;
  }
}

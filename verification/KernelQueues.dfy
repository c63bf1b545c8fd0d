/** The token programs over one typed System V queue (msgq/v_msgq.cpp): sends
    append, and a receive takes the oldest message of the type it asks for. */
module TypedQueue {
  import opened Processes
  import opened TokenProgram

  datatype Typed = Typed(kind: nat, msg: Message)

  const CONSUMER_TYPE: nat := 1
  const PRODUCER_TYPE: nat := 2
  const LOAD_TYPE: nat := 3

  function KindOf(name: Name): nat {
    match name case Producers => PRODUCER_TYPE case Crate => LOAD_TYPE case Consumers => CONSUMER_TYPE
  }

  /** The position of the oldest message of a type, or the length of the queue. */
  function FirstOf(q: seq<Typed>, kind: nat): (i: nat)
    ensures i <= |q| && (i < |q| ==> q[i].kind == kind)
  {
    if q == [] || q[0].kind == kind then 0 else 1 + FirstOf(q[1..], kind)
  }

  function Without(q: seq<Typed>, i: nat): seq<Typed>
    requires i < |q|
  {
    q[..i] + q[i + 1..]
  }

  const TEXT_SIZE: nat := 30

  /** The kernel limits the bytes of a queue. All messages have the same size, so that is
      a limit on their number. */
  lemma RoomInBytes(bytes: nat, count: nat)
    ensures count * TEXT_SIZE + TEXT_SIZE <= bytes <==> count < bytes / TEXT_SIZE
  {
    var limit := bytes / TEXT_SIZE;
    assert bytes == limit * TEXT_SIZE + bytes % TEXT_SIZE;
    if count < limit {
      assert (count + 1) * TEXT_SIZE <= limit * TEXT_SIZE;
    } else {
      assert (count + 1) * TEXT_SIZE >= (limit + 1) * TEXT_SIZE;
    }
  }

  /** `limit` is the number of messages that the kernel lets the queue hold. */
  datatype State = State(limit: nat, queue: seq<Typed>, procs: map<Pid, Proc>, delivered: seq<Delivery>)

  datatype Outcome = Moved(next: State) | Blocked | Fault

  function Next(s: State, p: Pid): Outcome {
    if p !in s.procs then Blocked else
    var proc := s.procs[p];
    match Wants(p, proc)
    case Send(to, m) =>
      if |s.queue| >= s.limit then Blocked
      else Moved(s.(queue := s.queue + [Typed(KindOf(to), m)], procs := s.procs[p := AfterSend(proc)]))
    case Receive(from) =>
      var i := FirstOf(s.queue, KindOf(from));
      if i == |s.queue| then Blocked
      else (match AfterReceive(proc, s.queue[i].msg)
        case To(proc') =>
          Moved(s.(queue := Without(s.queue, i), procs := s.procs[p := proc'],
                   delivered := Log(s.delivered, p, proc, s.queue[i].msg)))
        case Unreadable => Fault)
    case OutOfRange => Fault
  }

  function Run(s: State, schedule: seq<Pid>): Outcome
    decreases |schedule|
  {
    if schedule == [] then Moved(s)
    else match Next(s, schedule[0])
      case Moved(t) => Run(t, schedule[1..])
      case Blocked => Blocked
      case Fault => Fault
  }
}

module TypedQueueRefinement {
  import opened Processes
  import opened TokenProgram
  import opened TypedQueue
  import P = TokenProtocol
  import opened TokenPhases
  import SharedRoom

  /** The messages of one type, oldest first. */
  function OfKind(q: seq<Typed>, kind: nat): seq<Message> {
    if q == [] then []
    else if q[0].kind == kind then [q[0].msg] + OfKind(q[1..], kind)
    else OfKind(q[1..], kind)
  }

  /** A send is an append to the sequence of its type and to no other. */
  lemma {:induction false} SendAppends(q: seq<Typed>, t: Typed, kind: nat)
    ensures OfKind(q + [t], kind) == if t.kind == kind then OfKind(q, kind) + [t.msg] else OfKind(q, kind)
    decreases |q|
  {
    if q == [] {
      assert q + [t] == [t];
    } else {
      assert (q + [t])[1..] == q[1..] + [t];
      SendAppends(q[1..], t, kind);
    }
  }

  /** A typed receive removes the head of the sequence of its type and leaves the
      others unchanged; it has to wait exactly when that sequence is empty. */
  lemma {:induction false} ReceiveRemoves(q: seq<Typed>, kind: nat, other: nat)
    ensures FirstOf(q, kind) == |q| <==> OfKind(q, kind) == []
    ensures FirstOf(q, kind) < |q| ==>
              && q[FirstOf(q, kind)].msg == OfKind(q, kind)[0]
              && OfKind(Without(q, FirstOf(q, kind)), other)
                 == if other == kind then OfKind(q, kind)[1..] else OfKind(q, other)
    decreases |q|
  {
    if q == [] {
    } else {
      if q[0].kind == kind {
        assert Without(q, 0) == q[1..];
      } else {
        ReceiveRemoves(q[1..], kind, other);
        var i := FirstOf(q[1..], kind);
        if i < |q[1..]| {
          var w := Without(q, i + 1);
          assert w[1..] == Without(q[1..], i) && w[0] == q[0];
        }
      }
    }
  }

  /** A send waits exactly when the queue is full, a receive exactly when there is no
      message of its type. */
  lemma WaitsExactlyWhen(s: State, p: Pid)
    requires p in s.procs
    ensures Next(s, p).Blocked? <==>
              match s.procs[p]
              case AwaitToken => OfKind(s.queue, PRODUCER_TYPE) == []
              case AwaitHandover => OfKind(s.queue, CONSUMER_TYPE) == []
              case TakeItem(_, _) => OfKind(s.queue, LOAD_TYPE) == []
              case PutItem(_, k) => k < |ITEM_NAMES| && |s.queue| >= s.limit
              case PassToken(_, _) => |s.queue| >= s.limit
              case ReturnToken(_) => |s.queue| >= s.limit
  {
    ReceiveRemoves(s.queue, PRODUCER_TYPE, 0);
    ReceiveRemoves(s.queue, CONSUMER_TYPE, 0);
    ReceiveRemoves(s.queue, LOAD_TYPE, 0);
    hide OfKind, FirstOf;
  }

  predicate Known(q: seq<Typed>) { forall i :: 0 <= i < |q| ==> 1 <= q[i].kind <= 3 }

  lemma {:induction false} LengthByKinds(q: seq<Typed>)
    requires Known(q)
    ensures |q| == |OfKind(q, 1)| + |OfKind(q, 2)| + |OfKind(q, 3)|
    decreases |q|
  {
    if q == [] {
    } else {
      LengthByKinds(q[1..]);
    }
  }

  function QueuesOf(q: seq<Typed>): P.Queues {
    P.Queues(OfKind(q, PRODUCER_TYPE), OfKind(q, LOAD_TYPE), OfKind(q, CONSUMER_TYPE))
  }

  function Image(s: State): P.State { P.State(s.limit, QueuesOf(s.queue), s.procs, s.delivered) }

  lemma SendImage(q: seq<Typed>, to: Name, m: Message)
    ensures QueuesOf(q + [Typed(KindOf(to), m)]) == QueuesOf(q).Set(to, QueuesOf(q).Get(to) + [m])
  {
    SendAppends(q, Typed(KindOf(to), m), 1);
    SendAppends(q, Typed(KindOf(to), m), 2);
    SendAppends(q, Typed(KindOf(to), m), 3);
  }

  lemma ReceiveImage(q: seq<Typed>, from: Name)
    ensures FirstOf(q, KindOf(from)) == |q| <==> QueuesOf(q).Get(from) == []
    ensures var i := FirstOf(q, KindOf(from));
            i < |q| ==>
              && q[i].msg == QueuesOf(q).Get(from)[0]
              && QueuesOf(Without(q, i)) == QueuesOf(q).Set(from, QueuesOf(q).Get(from)[1..])
  {
    ReceiveRemoves(q, KindOf(from), 1);
    ReceiveRemoves(q, KindOf(from), 2);
    ReceiveRemoves(q, KindOf(from), 3);
  }

  /** Reachable: the image is at some stage of the protocol, and there is room for
      one message more than the crate's capacity. */
  ghost predicate Inv(s: State, c: nat, rounds: nat, st: Stage) {
    At(Image(s), c, rounds, st) && Known(s.queue) && c + 1 <= s.limit
  }

  /** The queue never holds more than the items of a batch and one control message. */
  lemma AtMostOneMore(s: State, c: nat, rounds: nat, st: Stage)
    requires Inv(s, c, rounds, st)
    ensures |s.queue| <= c + 1
  {
    hide InBatches, Indexed, Staffed;
    LengthByKinds(s.queue);
  }

  lemma RoomToSend(s: State, c: nat, rounds: nat, st: Stage, p: Pid)
    requires Inv(s, c, rounds, st) && p in s.procs && Wants(p, s.procs[p]).Send?
    ensures |s.queue| < s.limit && |QueuesOf(s.queue).Get(Wants(p, s.procs[p]).to)| < s.limit
  {
    hide InBatches, Indexed;
    LengthByKinds(s.queue);
  }

  /** Step by step the typed queue does what the three queues do. */
  lemma SameStep(s: State, c: nat, rounds: nat, st: Stage, p: Pid)
    requires Inv(s, c, rounds, st)
    ensures match Next(s, p)
            case Moved(t) => P.Next(Image(s), p) == P.Moved(Image(t)) && Known(t.queue) && t.limit == s.limit
            case Blocked => P.Next(Image(s), p) == P.Blocked
            case Fault => P.Next(Image(s), p) == P.Fault
  {
    if p in s.procs {
      var request := Wants(p, s.procs[p]);
      if request.Send? {
        RoomToSend(s, c, rounds, st, p);
        SendImage(s.queue, request.to, request.msg);
      } else if request.Receive? {
        ReceiveImage(s.queue, request.from);
      }
      hide At, OfKind, FirstOf, Wants, AfterReceive, QueuesOf;
      SameOutcome(s, p);
    }
  }

  lemma SameOutcome(s: State, p: Pid)
    requires p in s.procs && Known(s.queue)
    requires var request := Wants(p, s.procs[p]);
             && (request.Send? ==>
                   && |s.queue| < s.limit && |QueuesOf(s.queue).Get(request.to)| < s.limit
                   && QueuesOf(s.queue + [Typed(KindOf(request.to), request.msg)])
                      == QueuesOf(s.queue).Set(request.to, QueuesOf(s.queue).Get(request.to) + [request.msg]))
             && (request.Receive? ==>
                   var i := FirstOf(s.queue, KindOf(request.from));
                   && (i == |s.queue| <==> QueuesOf(s.queue).Get(request.from) == [])
                   && (i < |s.queue| ==>
                         && s.queue[i].msg == QueuesOf(s.queue).Get(request.from)[0]
                         && QueuesOf(Without(s.queue, i))
                            == QueuesOf(s.queue).Set(request.from, QueuesOf(s.queue).Get(request.from)[1..])))
    ensures match Next(s, p)
            case Moved(t) => P.Next(Image(s), p) == P.Moved(Image(t)) && Known(t.queue) && t.limit == s.limit
            case Blocked => P.Next(Image(s), p) == P.Blocked
            case Fault => P.Next(Image(s), p) == P.Fault
  {
    hide OfKind, FirstOf, Wants, AfterReceive, QueuesOf, AfterSend, Log, P.Queues.Get, P.Queues.Set;
  }

  /** A schedule runs on the typed queue exactly as it runs on the three queues, and
      the typed queue stays within the capacity and one. */
  lemma {:induction false} SameRun(s: State, c: nat, rounds: nat, st: Stage, schedule: seq<Pid>)
    returns (rounds': nat, st': Stage)
    requires Inv(s, c, rounds, st)
    ensures match Run(s, schedule)
            case Moved(t) =>
              && P.Run(Image(s), schedule) == P.Moved(Image(t))
              && Inv(t, c, rounds', st') && |t.queue| <= c + 1
            case Blocked => P.Run(Image(s), schedule) == P.Blocked
            case Fault => P.Run(Image(s), schedule) == P.Fault
    decreases |schedule|
  {
    rounds', st' := rounds, st;
    hide At, Next, P.Next, Image, Known, After, RoundsAfter;
    if schedule == [] {
      AtMostOneMore(s, c, rounds, st);
    } else {
      var p := schedule[0];
      SameStep(s, c, rounds, st, p);
      if Next(s, p).Moved? {
        AtStep(Image(s), c, rounds, st, p);
        rounds', st' := SameRun(Next(s, p).next, c, RoundsAfter(c, rounds, st), After(c, st, p), schedule[1..]);
      }
    }
  }

  /** With one token, a producer and a consumer, no schedule deadlocks or faults on
      the typed queue. */
  lemma NoDeadlock(s: State, c: nat, schedule: seq<Pid>, producer: Pid, consumer: Pid)
    requires P.Initial(Image(s), c) && Known(s.queue) && c + 1 <= s.limit && Run(s, schedule).Moved?
    requires producer in s.procs && s.procs[producer].IsProducer()
    requires consumer in s.procs && !s.procs[consumer].IsProducer()
    ensures exists p :: Next(Run(s, schedule).next, p).Moved?
    ensures forall p :: !Next(Run(s, schedule).next, p).Fault?
  {
    AtInitial(Image(s), c);
    hide Next, P.Next, At, Known, P.Initial, Run, P.Run;
    var rounds, st := SameRun(s, c, 0, Waiting(0), schedule);
    var t := Run(s, schedule).next;
    TokenPhases.NoDeadlock(Image(s), c, schedule, producer, consumer);
    var p :| P.Next(Image(t), p).Moved?;
    SameStep(t, c, rounds, st, p);
    assert Next(t, p).Moved?;
    forall q ensures !Next(t, q).Fault? {
      SameStep(t, c, rounds, st, q);
    }
  }

  // ---- with how many tokens the protocol runs on ----

  predicate CanMove(s: State, p: Pid) { Next(s, p).Moved? }

  ghost predicate RunsOn(s: State) {
    forall schedule :: Run(s, schedule).Moved? ==> exists p :: CanMove(Run(s, schedule).next, p)
  }

  /** Only `n` initial messages are in the queue, and all processes are at the top of their loops. */
  ghost predicate StartedWith(s: State, c: nat, n: nat) {
    && s.queue == seq(n, (_: nat) => Typed(PRODUCER_TYPE, Token(c, 0))) && s.delivered == [] && n <= s.limit
    && forall q :: q in s.procs ==> s.procs[q].Idle()
  }

  lemma SharedSize(s: State, to: Name)
    requires Known(s.queue)
    ensures SharedRoom.Size(QueuesOf(s.queue)) == |s.queue| && |QueuesOf(s.queue).Get(to)| <= |s.queue|
  {
    LengthByKinds(s.queue);
  }

  /** Whatever is in it, the typed queue is three queues that share its room. */
  lemma SharedStep(s: State, p: Pid)
    requires Known(s.queue)
    ensures match Next(s, p)
            case Moved(t) => SharedRoom.Step(Image(s), p) == P.Moved(Image(t)) && Known(t.queue)
            case Blocked => SharedRoom.Step(Image(s), p) == P.Blocked
            case Fault => SharedRoom.Step(Image(s), p) == P.Fault
  {
    if p in s.procs {
      var request := Wants(p, s.procs[p]);
      SharedSize(s, Crate);
      if request.Send? {
        SharedSize(s, request.to);
        SendImage(s.queue, request.to, request.msg);
      } else if request.Receive? {
        ReceiveImage(s.queue, request.from);
      }
      hide OfKind, FirstOf, Wants, AfterReceive, QueuesOf, P.Queues.Get, P.Queues.Set, P.Next;
      if !SharedRoom.Full(Image(s), p) { SameOutcome(s, p); }
    }
  }

  lemma {:induction false} SharedRun(s: State, schedule: seq<Pid>)
    requires Known(s.queue)
    ensures match Run(s, schedule)
            case Moved(t) => SharedRoom.Runs(Image(s), schedule) == P.Moved(Image(t)) && Known(t.queue)
            case Blocked => SharedRoom.Runs(Image(s), schedule) == P.Blocked
            case Fault => SharedRoom.Runs(Image(s), schedule) == P.Fault
    decreases |schedule|
  {
    hide Known, Next, SharedRoom.Step, Image;
    if schedule == [] {
    } else {
      SharedStep(s, schedule[0]);
      if Next(s, schedule[0]).Moved? {
        SharedRun(Next(s, schedule[0]).next, schedule[1..]);
      }
    }
  }

  lemma SharedMoves(s: State)
    requires Known(s.queue)
    ensures (exists p :: CanMove(s, p)) <==> (exists p :: SharedRoom.CanMove(Image(s), p))
  {
    hide Next, SharedRoom.Step, Known, Image;
    if p :| CanMove(s, p) {
      SharedStep(s, p);
      assert SharedRoom.CanMove(Image(s), p);
    }
    if p :| SharedRoom.CanMove(Image(s), p) {
      SharedStep(s, p);
      assert CanMove(s, p);
    }
  }

  lemma SharedFate(s: State)
    requires Known(s.queue)
    ensures RunsOn(s) <==> SharedRoom.RunsOn(Image(s))
  {
    hide Next, SharedRoom.Step, Known, Image, Run, SharedRoom.Runs, CanMove, SharedRoom.CanMove;
    forall schedule
      ensures (Run(s, schedule).Moved? ==> exists p :: CanMove(Run(s, schedule).next, p))
              <==> (SharedRoom.Runs(Image(s), schedule).Moved?
                    ==> exists p :: SharedRoom.CanMove(SharedRoom.Runs(Image(s), schedule).next, p))
    {
      SharedRun(s, schedule);
      if Run(s, schedule).Moved? { SharedMoves(Run(s, schedule).next); }
    }
  }

  lemma {:induction false} TokensOnly(c: nat, n: nat)
    ensures var q := seq(n, (_: nat) => Typed(PRODUCER_TYPE, Token(c, 0)));
            Known(q) && QueuesOf(q) == P.Queues(seq(n, (_: nat) => Token(c, 0)), [], [])
    decreases n
  {
    var q := seq(n, (_: nat) => Typed(PRODUCER_TYPE, Token(c, 0)));
    if n == 0 {
      assert q == [] && seq(n, (_: nat) => Token(c, 0)) == [];
    } else {
      var before := seq(n - 1, (_: nat) => Typed(PRODUCER_TYPE, Token(c, 0)));
      TokensOnly(c, n - 1);
      assert q == before + [Typed(PRODUCER_TYPE, Token(c, 0))];
      SendImage(before, Producers, Token(c, 0));
      assert seq(n, (_: nat) => Token(c, 0)) == seq(n - 1, (_: nat) => Token(c, 0)) + [Token(c, 0)];
    }
  }

  /** With `n` initial messages, a producer and a consumer every schedule can go on for
      ever exactly when there is a token, a batch has at least one item and at most as
      many as there are names, and the queue has room for `c` messages for every token,
      and for `c + 1` for every token but those that all consumers, waiting to return
      one, can hold. */
  lemma RunsOnExactlyWhen(s: State, c: nat, n: nat, producer: Pid, consumer: Pid)
    requires StartedWith(s, c, n)
    requires producer in s.procs && s.procs[producer].IsProducer()
    requires consumer in s.procs && !s.procs[consumer].IsProducer()
    ensures RunsOn(s) <==> 1 <= n && 1 <= c <= |ITEM_NAMES|
                           && SharedRoom.Roomy(c, n, SharedRoom.Consumers(Image(s)), s.limit)
  {
    TokensOnly(c, n);
    hide RunsOn, SharedRoom.RunsOn, SharedRoom.Roomy, OfKind;
    SharedFate(s);
    SharedRoom.RunsOnExactlyWhen(Image(s), c, n, producer, consumer);
  }
}

/** The token programs over three POSIX message queues (msgq/main.cpp): a receive
    takes the oldest message of the highest priority and reports that priority,
    which the program uses for what it next puts into the crate. */
module PriorityQueues {
  import opened Processes
  import opened TokenProgram

  datatype Ranked = Ranked(priority: nat, msg: Message)

  /** The position of the oldest message of the highest priority. */
  function Best(q: seq<Ranked>): (i: nat)
    requires q != []
    ensures i < |q|
  {
    if |q| == 1 then 0
    else
      var j := Best(q[1..]);
      if q[0].priority >= q[1 + j].priority then 0 else 1 + j
  }

  datatype Queues = Queues(producers: seq<Ranked>, crate: seq<Ranked>, consumers: seq<Ranked>) {
    function Get(name: Name): seq<Ranked> {
      match name case Producers => producers case Crate => crate case Consumers => consumers
    }
    function Set(name: Name, q: seq<Ranked>): Queues {
      match name
      case Producers => this.(producers := q)
      case Crate => this.(crate := q)
      case Consumers => this.(consumers := q)
    }
  }

  /** A process and its variable `msgprio`. */
  datatype Member = Member(proc: Proc, priority: nat)

  datatype State = State(maxmsg: nat, queues: Queues, members: map<Pid, Member>, delivered: seq<Delivery>)

  datatype Outcome = Moved(next: State) | Blocked | Fault

  /** Items go into the crate with the priority last received, control messages with 1. */
  function SendPriority(m: Member): nat { if m.proc.PutItem? then m.priority else 1 }

  function Next(s: State, p: Pid): Outcome {
    if p !in s.members then Blocked else
    var member := s.members[p];
    match Wants(p, member.proc)
    case Send(to, m) =>
      if |s.queues.Get(to)| >= s.maxmsg then Blocked
      else Moved(s.(queues := s.queues.Set(to, s.queues.Get(to) + [Ranked(SendPriority(member), m)]),
                    members := s.members[p := member.(proc := AfterSend(member.proc))]))
    case Receive(from) =>
      var q := s.queues.Get(from);
      if q == [] then Blocked
      else
        var i := Best(q);
        (match AfterReceive(member.proc, q[i].msg)
         case To(proc) =>
           Moved(s.(queues := s.queues.Set(from, q[..i] + q[i + 1..]),
                    members := s.members[p := Member(proc, q[i].priority)],
                    delivered := Log(s.delivered, p, member.proc, q[i].msg)))
         case Unreadable => Fault)
    case OutOfRange => Fault
  }

  function Run(s: State, schedule: seq<Pid>): Outcome
    decreases |schedule|
  {
    if schedule == [] then Moved(s)
    else match Next(s, schedule[0])
      case Moved(t) => Run(t, schedule[1..])
      case Blocked => Blocked
      case Fault => Fault
  }
}

module PriorityQueuesRefinement {
  import opened Processes
  import opened TokenProgram
  import opened PriorityQueues
  import P = TokenProtocol
  import TokenPhases
  import TokenLimits

  predicate AllOne(q: seq<Ranked>) { forall i :: 0 <= i < |q| ==> q[i].priority == 1 }

  /** Every queued message and every process has priority 1. */
  ghost predicate Flat(s: State) {
    && (forall name :: AllOne(s.queues.Get(name)))
    && (forall p :: p in s.members ==> s.members[p].priority == 1)
  }

  /** No message has a higher priority than the best one, and no older one as high a priority. */
  lemma {:induction false} BestIs(q: seq<Ranked>)
    requires q != []
    ensures forall j :: 0 <= j < |q| ==> q[j].priority <= q[Best(q)].priority
    ensures forall j :: 0 <= j < Best(q) ==> q[j].priority < q[Best(q)].priority
    decreases |q|
  {
    if |q| > 1 {
      BestIs(q[1..]);
      var i := 1 + Best(q[1..]);
      forall j | 0 <= j < |q| ensures q[j].priority <= q[Best(q)].priority && (j < Best(q) ==> q[j].priority < q[Best(q)].priority) {
        if j > 0 { assert q[j] == q[1..][j - 1]; }
        assert q[i] == q[1..][i - 1];
      }
    }
  }

  /** An item goes into the crate with the priority of the token received for it, and the
      token goes on with priority 1. */
  lemma PriorityPassedOn(s: State, p: Pid)
    requires p in s.members && s.members[p].proc == AwaitToken && Next(s, p).Moved?
    ensures s.queues.producers != []
    ensures var t, best := Next(s, p).next, s.queues.producers[Best(s.queues.producers)];
            Next(t, p).Moved? ==>
              && best.msg.Token?
              && Next(t, p).next.queues.crate == s.queues.crate + [Ranked(best.priority, Item(p, best.msg.index))]
              && (best.msg.index + 1 != best.msg.capacity && Next(Next(t, p).next, p).Moved? ==>
                    Next(Next(t, p).next, p).next.queues.producers
                    == t.queues.producers + [Ranked(1, Token(best.msg.capacity, best.msg.index + 1))])
  {
    hide Best;
  }

  /** Among equals the oldest message is the best. */
  lemma {:induction false} OldestIsBest(q: seq<Ranked>)
    requires q != [] && AllOne(q)
    ensures Best(q) == 0
    decreases |q|
  {
    if |q| > 1 {
      OldestIsBest(q[1..]);
    }
  }

  function Messages(q: seq<Ranked>): seq<Message> { seq(|q|, i requires 0 <= i < |q| => q[i].msg) }

  function Image(s: State): P.State {
    P.State(s.maxmsg,
            P.Queues(Messages(s.queues.producers), Messages(s.queues.crate), Messages(s.queues.consumers)),
            map p | p in s.members :: s.members[p].proc, s.delivered)
  }

  lemma ImageGet(s: State, name: Name)
    ensures Image(s).queues.Get(name) == Messages(s.queues.Get(name))
  {
  }

  lemma ImageSet(s: State, name: Name, q: seq<Ranked>, p: Pid, member: Member, delivered: seq<Delivery>)
    ensures var t := s.(queues := s.queues.Set(name, q), members := s.members[p := member], delivered := delivered);
            Image(t) == Image(s).(queues := Image(s).queues.Set(name, Messages(q)),
                                  procs := Image(s).procs[p := member.proc], delivered := delivered)
  {
  }

  lemma FlatSet(s: State, name: Name, q: seq<Ranked>, p: Pid, member: Member, delivered: seq<Delivery>)
    requires Flat(s) && AllOne(q) && member.priority == 1
    ensures Flat(s.(queues := s.queues.Set(name, q), members := s.members[p := member], delivered := delivered))
  {
    var t := s.(queues := s.queues.Set(name, q), members := s.members[p := member], delivered := delivered);
    forall other ensures AllOne(t.queues.Get(other)) {
      assert AllOne(s.queues.Get(other));
    }
  }

  lemma SendStep(s: State, p: Pid)
    requires Flat(s) && p in s.members && Wants(p, s.members[p].proc).Send?
    ensures match Next(s, p)
            case Moved(t) => P.Next(Image(s), p) == P.Moved(Image(t)) && Flat(t)
            case Blocked => P.Next(Image(s), p) == P.Blocked
            case Fault => P.Next(Image(s), p) == P.Fault
  {
    hide Flat, Image, Wants, AfterSend, Queues.Get, Queues.Set, AllOne, Best;
    var member := s.members[p];
    var request := Wants(p, member.proc);
    var q := s.queues.Get(request.to);
    var more := q + [Ranked(SendPriority(member), request.msg)];
    ImageGet(s, request.to);
    FlatMember(s, p, request.to);
    assert Messages(more) == Messages(q) + [request.msg];
    FlatAppend(q, SendPriority(member), request.msg);
    ImageProc(s, p);
    FlatSet(s, request.to, more, p, member.(proc := AfterSend(member.proc)), s.delivered);
    ImageSet(s, request.to, more, p, member.(proc := AfterSend(member.proc)), s.delivered);
  }

  lemma ImageProc(s: State, p: Pid)
    requires p in s.members
    ensures var a := Image(s);
            && p in a.procs && a.procs[p] == s.members[p].proc
            && a.bound == s.maxmsg && a.delivered == s.delivered
  {
  }

  lemma FlatMember(s: State, p: Pid, name: Name)
    requires Flat(s) && p in s.members
    ensures s.members[p].priority == 1 && AllOne(s.queues.Get(name))
  {
  }

  lemma FlatAppend(q: seq<Ranked>, priority: nat, m: Message)
    requires AllOne(q) && priority == 1
    ensures AllOne(q + [Ranked(priority, m)])
  {
  }

  lemma ReceiveStep(s: State, p: Pid)
    requires Flat(s) && p in s.members && Wants(p, s.members[p].proc).Receive?
    ensures match Next(s, p)
            case Moved(t) => P.Next(Image(s), p) == P.Moved(Image(t)) && Flat(t)
            case Blocked => P.Next(Image(s), p) == P.Blocked
            case Fault => P.Next(Image(s), p) == P.Fault
  {
    hide Flat, Image, Wants, AfterReceive, Queues.Get, Queues.Set, Best, Log;
    var member := s.members[p];
    var request := Wants(p, member.proc);
    var q := s.queues.Get(request.from);
    ImageGet(s, request.from);
    FlatMember(s, p, request.from);
    ImageProc(s, p);
    if q != [] {
      OldestIsBest(q);
      assert q[..0] + q[1..] == q[1..];
      assert Messages(q)[1..] == Messages(q[1..]) && Messages(q)[0] == q[0].msg;
      if AfterReceive(member.proc, q[0].msg).To? {
        var member' := Member(AfterReceive(member.proc, q[0].msg).proc, q[0].priority);
        var log := Log(s.delivered, p, member.proc, q[0].msg);
        FlatSet(s, request.from, q[1..], p, member', log);
        ImageSet(s, request.from, q[1..], p, member', log);
      }
    }
  }

  /** Whatever the size of the queues: all priorities stay 1, and the priority
      queues do step by step what plain FIFO queues of the same size do. */
  lemma SameStep(s: State, p: Pid)
    requires Flat(s)
    ensures match Next(s, p)
            case Moved(t) => P.Next(Image(s), p) == P.Moved(Image(t)) && Flat(t)
            case Blocked => P.Next(Image(s), p) == P.Blocked
            case Fault => P.Next(Image(s), p) == P.Fault
  {
    if p in s.members {
      hide Next, P.Next, Image, Flat, Wants;
      match Wants(p, s.members[p].proc)
      case Send(_, _) => SendStep(s, p);
      case Receive(_) => ReceiveStep(s, p);
      case OutOfRange => NoRequest(s, p);
    }
  }

  lemma NoRequest(s: State, p: Pid)
    requires p in s.members && Wants(p, s.members[p].proc) == OutOfRange
    ensures Next(s, p).Fault? && P.Next(Image(s), p).Fault?
  {
  }

  lemma {:induction false} SameRun(s: State, schedule: seq<Pid>)
    requires Flat(s)
    ensures match Run(s, schedule)
            case Moved(t) => P.Run(Image(s), schedule) == P.Moved(Image(t)) && Flat(t)
            case Blocked => P.Run(Image(s), schedule) == P.Blocked
            case Fault => P.Run(Image(s), schedule) == P.Fault
    decreases |schedule|
  {
    hide Flat, Next, P.Next, Image;
    if schedule == [] {
    } else {
      SameStep(s, schedule[0]);
      if Next(s, schedule[0]).Moved? {
        SameRun(Next(s, schedule[0]).next, schedule[1..]);
      }
    }
  }

  /** With one token, a producer and a consumer, no schedule deadlocks or faults on
      the priority queues, however long they may grow. */
  lemma NoDeadlock(s: State, c: nat, schedule: seq<Pid>, producer: Pid, consumer: Pid)
    requires Flat(s) && P.Initial(Image(s), c) && Run(s, schedule).Moved?
    requires producer in s.members && s.members[producer].proc.IsProducer()
    requires consumer in s.members && !s.members[consumer].proc.IsProducer()
    ensures Flat(Run(s, schedule).next)
    ensures exists p :: Next(Run(s, schedule).next, p).Moved?
    ensures forall p :: !Next(Run(s, schedule).next, p).Fault?
  {
    ImageProc(s, producer);
    ImageProc(s, consumer);
    hide Next, P.Next, Flat, P.Initial, Run, P.Run, Image;
    SameRun(s, schedule);
    var t := Run(s, schedule).next;
    TokenPhases.NoDeadlock(Image(s), c, schedule, producer, consumer);
    var p :| P.Next(Image(t), p).Moved?;
    SameStep(t, p);
    assert Next(t, p).Moved?;
    forall q ensures !Next(t, q).Fault? {
      SameStep(t, q);
    }
  }

  // ---- for which capacities the protocol runs on ----

  predicate CanMove(s: State, p: Pid) { Next(s, p).Moved? }

  ghost predicate RunsOn(s: State) {
    forall schedule :: Run(s, schedule).Moved? ==> exists p :: CanMove(Run(s, schedule).next, p)
  }

  lemma SameMoves(s: State)
    requires Flat(s)
    ensures (exists p :: CanMove(s, p)) <==> (exists p :: TokenLimits.CanMove(Image(s), p))
  {
    hide Next, P.Next, Flat, Image;
    if p :| CanMove(s, p) {
      SameStep(s, p);
      assert TokenLimits.CanMove(Image(s), p);
    }
    if p :| TokenLimits.CanMove(Image(s), p) {
      SameStep(s, p);
      assert CanMove(s, p);
    }
  }

  lemma SameFate(s: State)
    requires Flat(s)
    ensures RunsOn(s) <==> TokenLimits.RunsOn(Image(s))
  {
    hide Next, P.Next, Flat, Image, Run, P.Run, CanMove, TokenLimits.CanMove;
    forall schedule
      ensures (Run(s, schedule).Moved? ==> exists p :: CanMove(Run(s, schedule).next, p))
              <==> (P.Run(Image(s), schedule).Moved? ==> exists p :: TokenLimits.CanMove(P.Run(Image(s), schedule).next, p))
    {
      SameRun(s, schedule);
      if Run(s, schedule).Moved? { SameMoves(Run(s, schedule).next); }
    }
  }

  /** What stops the protocol over plain queues stops it over the priority queues, too,
      and nothing else does. */
  lemma RunsOnExactlyWhen(s: State, c: nat, n: nat, producer: Pid, consumer: Pid)
    requires Flat(s) && TokenLimits.StartedWith(Image(s), c, n)
    requires producer in s.members && s.members[producer].proc.IsProducer()
    requires consumer in s.members && !s.members[consumer].proc.IsProducer()
    ensures RunsOn(s) <==> 1 <= n && 1 <= c <= |ITEM_NAMES| && n * (c - 1) < s.maxmsg
  {
    ImageProc(s, producer);
    ImageProc(s, consumer);
    hide RunsOn, TokenLimits.RunsOn, Flat, TokenLimits.StartedWith, Image;
    SameFate(s);
    TokenLimits.RunsOnExactlyWhen(Image(s), c, n, producer, consumer);
  }
}

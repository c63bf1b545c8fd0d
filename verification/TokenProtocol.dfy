/** The producer and consumer loops of the three message queue programs
    (msgq/custom_queue.cpp, msgq/main.cpp, msgq/v_msgq.cpp). The programs differ
    only in the queues they run over: a loop asks for one queue operation at a
    time and goes on with its result. */
module TokenProgram {
  import opened Processes

  const ITEM_NAMES: seq<string> := ["jedna", "dva", "tri", "ctyri", "pet", "sest", "sedm", "osm"]

  datatype Name = Producers | Crate | Consumers

  /** "capacity index" on the producers' queue, "capacity" on the consumers', an item in the crate. */
  datatype Message = Token(capacity: nat, index: nat) | Handover(capacity: nat) | Item(pid: Pid, index: nat)

  datatype Proc =
    | AwaitToken | PutItem(capacity: nat, index: nat) | PassToken(capacity: nat, index: nat)
    | AwaitHandover | TakeItem(capacity: nat, i: nat) | ReturnToken(capacity: nat)
  {
    predicate IsProducer() { AwaitToken? || PutItem? || PassToken? }

    /** At the top of the loop. */
    predicate Idle() { AwaitToken? || AwaitHandover? }
  }

  datatype Request = Receive(from: Name) | Send(to: Name, msg: Message) | OutOfRange

  /** The queue operation that process `p` performs next; naming an item indexes the table. */
  function Wants(p: Pid, proc: Proc): Request {
    match proc
    case AwaitToken => Receive(Producers)
    case PutItem(_, k) => if k < |ITEM_NAMES| then Send(Crate, Item(p, k)) else OutOfRange
    case PassToken(c, k) => if k == c then Send(Consumers, Handover(c)) else Send(Producers, Token(c, k))
    case AwaitHandover => Receive(Consumers)
    case TakeItem(_, _) => Receive(Crate)
    case ReturnToken(c) => Send(Producers, Token(c, 0))
  }

  function AfterSend(proc: Proc): Proc {
    match proc
    case PutItem(c, k) => PassToken(c, k + 1)
    case PassToken(_, _) => AwaitToken
    case ReturnToken(_) => AwaitHandover
    case _ => proc
  }

  datatype Resumed = To(proc: Proc) | Unreadable

  /** The head of the consumer's loop over the crate. */
  function Loop(c: nat, i: nat): Proc { if i < c then TakeItem(c, i) else ReturnToken(c) }

  function AfterReceive(proc: Proc, msg: Message): Resumed {
    match (proc, msg)
    case (AwaitToken, Token(c, k)) => To(PutItem(c, k))
    case (AwaitHandover, Handover(c)) => To(Loop(c, 0))
    case (TakeItem(c, i), Item(_, _)) => To(Loop(c, i + 1))
    case _ => Unreadable
  }

  /** An item that a consumer has read from the crate. */
  datatype Delivery = Delivery(reader: Pid, item: Message)

  function Log(delivered: seq<Delivery>, p: Pid, proc: Proc, msg: Message): seq<Delivery> {
    if proc.TakeItem? then delivered + [Delivery(p, msg)] else delivered
  }
}

/** The token protocol over three abstract bounded FIFO queues. */
module TokenProtocol {
  import opened Processes
  import opened TokenProgram

  datatype Queues = Queues(producers: seq<Message>, crate: seq<Message>, consumers: seq<Message>) {
    function Get(name: Name): seq<Message> {
      match name case Producers => producers case Crate => crate case Consumers => consumers
    }
    function Set(name: Name, q: seq<Message>): Queues {
      match name
      case Producers => this.(producers := q)
      case Crate => this.(crate := q)
      case Consumers => this.(consumers := q)
    }
  }

  datatype State = State(bound: nat, queues: Queues, procs: map<Pid, Proc>, delivered: seq<Delivery>)

  datatype Outcome = Moved(next: State) | Blocked | Fault

  function Next(s: State, p: Pid): Outcome {
    if p !in s.procs then Blocked else
    var proc := s.procs[p];
    match Wants(p, proc)
    case Send(to, m) =>
      if |s.queues.Get(to)| >= s.bound then Blocked
      else Moved(s.(queues := s.queues.Set(to, s.queues.Get(to) + [m]), procs := s.procs[p := AfterSend(proc)]))
    case Receive(from) =>
      var q := s.queues.Get(from);
      if q == [] then Blocked
      else (match AfterReceive(proc, q[0])
        case To(proc') =>
          Moved(s.(queues := s.queues.Set(from, q[1..]), procs := s.procs[p := proc'],
                   delivered := Log(s.delivered, p, proc, q[0])))
        case Unreadable => Fault)
    case OutOfRange => Fault
  }

  function Run(s: State, schedule: seq<Pid>): Outcome
    decreases |schedule|
  {
    if schedule == [] then Moved(s)
    else match Next(s, schedule[0])
      case Moved(t) => Run(t, schedule[1..])
      case Blocked => Blocked
      case Fault => Fault
  }

  /** All processes at the top of their loops and the one initial message sent. */
  ghost predicate Initial(s: State, c: nat) {
    && 1 <= c <= s.bound && c <= |ITEM_NAMES|
    && s.queues == Queues([Token(c, 0)], [], [])
    && (forall p :: p in s.procs ==> s.procs[p].Idle())
    && s.delivered == []
  }

  lemma {:induction false} RunConcat(s: State, a: seq<Pid>, b: seq<Pid>)
    requires Run(s, a).Moved?
    ensures Run(s, a + b) == Run(Run(s, a).next, b)
    decreases |a|
  {
    hide Next;
    if a == [] {
      assert a + b == b;
    } else {
      assert (a + b)[1..] == a[1..] + b;
      RunConcat(Next(s, a[0]).next, a[1..], b);
    }
  }
}

/** Where the token is after any number of steps, and what has been delivered. */
module TokenPhases {
  import opened Processes
  import opened Modular
  import opened TokenProgram
  import opened TokenProtocol

  /** The token waits with index k, a producer puts item k, it passes the token on,
      the batch is handed over, a consumer has read i items of it. */
  datatype Stage =
    | Waiting(k: nat) | Putting(k: nat, a: Pid) | Passing(k: nat, a: Pid) | Handed | Draining(i: nat, a: Pid)

  predicate InRange(c: nat, st: Stage) {
    match st
    case Waiting(k) => k < c
    case Putting(k, _) => k < c
    case Passing(k, _) => k < c
    case Handed => true
    case Draining(i, _) => i <= c
  }

  /** The number of steps since the token was last returned. */
  function Number(c: nat, st: Stage): nat {
    match st
    case Waiting(k) => 3 * k
    case Putting(k, _) => 3 * k + 1
    case Passing(k, _) => 3 * k + 2
    case Handed => 3 * c
    case Draining(i, _) => 3 * c + 1 + i
  }

  function Cycle(c: nat): nat { 4 * c + 2 }

  /** Items in the crate, the index of the first, and how many of the batch are delivered. */
  function CrateSize(c: nat, st: Stage): int {
    match st
    case Waiting(k) => k
    case Putting(k, _) => k
    case Passing(k, _) => k + 1
    case Handed => c
    case Draining(i, _) => c - i
  }

  function First(st: Stage): nat { if st.Draining? then st.i else 0 }

  function ProducersQueue(c: nat, st: Stage): seq<Message> { if st.Waiting? then [Token(c, st.k)] else [] }

  function ConsumersQueue(c: nat, st: Stage): seq<Message> { if st.Handed? then [Handover(c)] else [] }

  /** Nobody, or only process `a`, is past the top of its loop. */
  ghost predicate Staffed(procs: map<Pid, Proc>, c: nat, st: Stage) {
    match st
    case Waiting(_) => forall p :: p in procs ==> procs[p].Idle()
    case Handed => forall p :: p in procs ==> procs[p].Idle()
    case Putting(k, a) => Only(procs, a, PutItem(c, k))
    case Passing(k, a) => Only(procs, a, PassToken(c, k + 1))
    case Draining(i, a) => Only(procs, a, Loop(c, i))
  }

  ghost predicate Only(procs: map<Pid, Proc>, a: Pid, proc: Proc) {
    a in procs && procs[a] == proc && forall p :: p in procs && p != a ==> procs[p].Idle()
  }

  ghost predicate Indexed(q: seq<Message>, first: nat) {
    forall j :: 0 <= j < |q| ==> q[j].Item? && q[j].index == first + j
  }

  /** Deliveries come in batches 0, 1, ..., c-1, each read by one consumer; the last
      `i` of them are the batch that `a` is reading. */
  ghost predicate InBatches(log: seq<Delivery>, c: nat, rounds: nat, i: nat, a: Pid)
    requires c >= 1
  {
    && |log| == c * rounds + i
    && (forall n :: 0 <= n < |log| ==> log[n].item.Item? && log[n].item.index == n % c)
    && (forall m, n :: 0 <= m < |log| && 0 <= n < |log| && m / c == n / c ==> log[m].reader == log[n].reader)
    && (forall n :: c * rounds <= n < |log| ==> log[n].reader == a)
  }

  /** The whole state at a given stage of a given round. */
  ghost predicate At(s: State, c: nat, rounds: nat, st: Stage) {
    && 1 <= c <= s.bound && c <= |ITEM_NAMES| && InRange(c, st)
    && s.queues.producers == ProducersQueue(c, st) && s.queues.consumers == ConsumersQueue(c, st)
    && |s.queues.crate| == CrateSize(c, st) && Indexed(s.queues.crate, First(st))
    && Staffed(s.procs, c, st)
    && InBatches(s.delivered, c, rounds, First(st), if st.Draining? then st.a else 0)
  }

  /** What follows when process `p` acts. */
  function After(c: nat, st: Stage, p: Pid): Stage {
    match st
    case Waiting(k) => Putting(k, p)
    case Putting(k, a) => Passing(k, a)
    case Passing(k, _) => if k + 1 == c then Handed else Waiting(k + 1)
    case Handed => Draining(0, p)
    case Draining(i, a) => if i < c then Draining(i + 1, a) else Waiting(0)
  }

  function RoundsAfter(c: nat, rounds: nat, st: Stage): nat { if st == Draining(c, Actor(st)) then rounds + 1 else rounds }

  function Actor(st: Stage): Pid { if st.Waiting? || st.Handed? then 0 else st.a }

  // ---- deliveries ----

  lemma DeliverOne(log: seq<Delivery>, c: nat, rounds: nat, i: nat, a: Pid, d: Delivery)
    requires c >= 1 && i < c && InBatches(log, c, rounds, i, a)
    requires d.reader == a && d.item.Item? && d.item.index == i
    ensures InBatches(log + [d], c, rounds, i + 1, a)
  {
    RemainderOf(c, rounds, i);
    var log' := log + [d];
    forall m, n | 0 <= m < |log'| && 0 <= n < |log'| && m / c == n / c
      ensures log'[m].reader == log'[n].reader
    {
      if m == |log| || n == |log| {
        FromBatch(m, c, rounds);
        FromBatch(n, c, rounds);
      }
    }
  }

  lemma FromBatch(n: nat, c: nat, rounds: nat)
    requires c >= 1 && n / c == rounds
    ensures n >= c * rounds
  {
    assert n == c * (n / c) + n % c;
  }

  lemma CloseBatch(log: seq<Delivery>, c: nat, rounds: nat, a: Pid, b: Pid)
    requires c >= 1 && InBatches(log, c, rounds, c, a)
    ensures InBatches(log, c, rounds + 1, 0, b)
  {
    assert c * (rounds + 1) == c * rounds + c;
  }

  lemma OpenBatch(log: seq<Delivery>, c: nat, rounds: nat, a: Pid, b: Pid)
    requires c >= 1 && InBatches(log, c, rounds, 0, a)
    ensures InBatches(log, c, rounds, 0, b)
  {
  }

  // ---- who can act ----

  /** A step belongs to the stage: the right process makes the right request. */
  lemma MoverFits(s: State, c: nat, rounds: nat, st: Stage, p: Pid)
    requires At(s, c, rounds, st) && Next(s, p).Moved?
    ensures p in s.procs
    ensures st.Waiting? ==> s.procs[p] == AwaitToken
    ensures st.Handed? ==> s.procs[p] == AwaitHandover
    ensures st.Putting? || st.Passing? || st.Draining? ==> p == st.a
  {
    hide InBatches, Indexed;
  }

  lemma AwaitStep(s: State, c: nat, rounds: nat, st: Stage, p: Pid)
    requires At(s, c, rounds, st) && (st.Waiting? || st.Handed?) && Next(s, p).Moved?
    ensures At(Next(s, p).next, c, rounds, After(c, st, p))
  {
    MoverFits(s, c, rounds, st, p);
    OpenBatch(s.delivered, c, rounds, 0, p);
    hide InBatches, Indexed;
  }

  lemma PutStep(s: State, c: nat, rounds: nat, st: Stage, p: Pid)
    requires At(s, c, rounds, st) && st.Putting? && Next(s, p).Moved?
    ensures At(Next(s, p).next, c, rounds, After(c, st, p))
  {
    MoverFits(s, c, rounds, st, p);
    hide InBatches;
  }

  lemma PassStep(s: State, c: nat, rounds: nat, st: Stage, p: Pid)
    requires At(s, c, rounds, st) && st.Passing? && Next(s, p).Moved?
    ensures At(Next(s, p).next, c, rounds, After(c, st, p))
  {
    MoverFits(s, c, rounds, st, p);
    hide InBatches, Indexed;
  }

  lemma DrainStep(s: State, c: nat, rounds: nat, st: Stage, p: Pid)
    requires At(s, c, rounds, st) && st.Draining? && Next(s, p).Moved?
    ensures At(Next(s, p).next, c, RoundsAfter(c, rounds, st), After(c, st, p))
  {
    MoverFits(s, c, rounds, st, p);
    hide InBatches;
    if st.i < c {
      DeliverOne(s.delivered, c, rounds, st.i, st.a, Delivery(p, s.queues.crate[0]));
    } else {
      CloseBatch(s.delivered, c, rounds, st.a, 0);
    }
  }

  lemma AtStep(s: State, c: nat, rounds: nat, st: Stage, p: Pid)
    requires At(s, c, rounds, st) && Next(s, p).Moved?
    ensures At(Next(s, p).next, c, RoundsAfter(c, rounds, st), After(c, st, p))
    ensures Cycle(c) * RoundsAfter(c, rounds, st) + Number(c, After(c, st, p)) == Cycle(c) * rounds + Number(c, st) + 1
  {
    hide Next, InBatches, Indexed, Staffed;
    NumberStep(c, rounds, st, p);
    match st
    case Waiting(_) => AwaitStep(s, c, rounds, st, p);
    case Handed => AwaitStep(s, c, rounds, st, p);
    case Putting(_, _) => PutStep(s, c, rounds, st, p);
    case Passing(_, _) => PassStep(s, c, rounds, st, p);
    case Draining(_, _) => DrainStep(s, c, rounds, st, p);
  }

  lemma NumberStep(c: nat, rounds: nat, st: Stage, p: Pid)
    requires c >= 1 && InRange(c, st)
    ensures Cycle(c) * RoundsAfter(c, rounds, st) + Number(c, After(c, st, p)) == Cycle(c) * rounds + Number(c, st) + 1
  {
    assert Cycle(c) * (rounds + 1) == Cycle(c) * rounds + Cycle(c);
  }

  // ---- runs ----

  lemma {:induction false} AtRun(s: State, c: nat, rounds: nat, st: Stage, schedule: seq<Pid>)
    returns (rounds': nat, st': Stage)
    requires At(s, c, rounds, st) && Run(s, schedule).Moved?
    ensures At(Run(s, schedule).next, c, rounds', st')
    ensures Cycle(c) * rounds' + Number(c, st') == Cycle(c) * rounds + Number(c, st) + |schedule|
    decreases |schedule|
  {
    hide At, Next, Number, After, RoundsAfter;
    if schedule == [] {
      rounds', st' := rounds, st;
    } else {
      AtStep(s, c, rounds, st, schedule[0]);
      rounds', st' := AtRun(Next(s, schedule[0]).next, c, RoundsAfter(c, rounds, st),
                            After(c, st, schedule[0]), schedule[1..]);
    }
  }

  lemma AtInitial(s: State, c: nat)
    requires Initial(s, c)
    ensures At(s, c, 0, Waiting(0))
  {
  }

  lemma NumberInCycle(c: nat, st: Stage)
    requires InRange(c, st)
    ensures Number(c, st) < Cycle(c)
  {
  }

  /** What the queues look like `m` steps into a round. */
  predicate QueuesAt(q: Queues, c: nat, m: nat) {
    && q.producers == (if m < 3 * c && m % 3 == 0 then [Token(c, m / 3)] else [])
    && q.consumers == (if m == 3 * c then [Handover(c)] else [])
    && |q.crate| == if m <= 3 * c then (m + 1) / 3 else 4 * c + 1 - m
  }

  lemma QueuesByNumber(s: State, c: nat, rounds: nat, st: Stage)
    requires At(s, c, rounds, st)
    ensures QueuesAt(s.queues, c, Number(c, st))
  {
    hide InBatches, Indexed, Staffed;
  }

  /** Steps since the token was last returned, rounds completed, and items of the
      present batch delivered, after `n` steps. */
  function StepInRound(c: nat, n: nat): nat { n % Cycle(c) }

  function RoundsAt(c: nat, n: nat): int { n / Cycle(c) }

  function DeliveredOfBatch(c: nat, m: nat): nat { if m > 3 * c then m - 3 * c - 1 else 0 }

  /** Whichever processes act, the number of steps alone decides where the token is
      and with which index, how many items the crate holds and how many have been
      delivered; the deliveries are batches 0, 1, ..., c-1, each read by one consumer. */
  lemma StepsDecide(s: State, c: nat, schedule: seq<Pid>) returns (a: Pid)
    requires Initial(s, c) && Run(s, schedule).Moved?
    ensures var t, m := Run(s, schedule).next, StepInRound(c, |schedule|);
            && QueuesAt(t.queues, c, m)
            && Indexed(t.queues.crate, DeliveredOfBatch(c, m))
            && RoundsAt(c, |schedule|) >= 0 && InBatches(t.delivered, c, RoundsAt(c, |schedule|), DeliveredOfBatch(c, m), a)
  {
    AtInitial(s, c);
    hide Next;
    var rounds, st := AtRun(s, c, 0, Waiting(0), schedule);
    NumberInCycle(c, st);
    RemainderOf(Cycle(c), rounds, Number(c, st));
    QueuesByNumber(Run(s, schedule).next, c, rounds, st);
    a := if st.Draining? then st.a else 0;
  }

  // ---- who puts and who takes which item ----

  /** The steps, counted from the start, at which item number `n` is put in and taken out. */
  function PutAt(c: nat, n: nat): nat
    requires c >= 1
  {
    Cycle(c) * (n / c) + 3 * (n % c) + 1
  }

  function TakenAt(c: nat, n: nat): nat
    requires c >= 1
  {
    Cycle(c) * (n / c) + 3 * c + 1 + n % c
  }

  /** Item `n` has been put in by the process that took that step, under its own id. */
  ghost predicate PutBy(h: seq<Pid>, c: nat, n: nat, item: Message)
    requires c >= 1
  {
    PutAt(c, n) < |h| && item == Item(h[PutAt(c, n)], n % c)
  }

  ghost predicate TakenBy(h: seq<Pid>, c: nat, n: nat, reader: Pid)
    requires c >= 1
  {
    TakenAt(c, n) < |h| && reader == h[TakenAt(c, n)]
  }

  /** After the steps of `h` every item put in, delivered or not, is signed. */
  ghost predicate Signed(s: State, c: nat, rounds: nat, st: Stage, h: seq<Pid>)
    requires c >= 1
  {
    && |h| == Cycle(c) * rounds + Number(c, st)
    && (forall n :: 0 <= n < |s.delivered| ==>
          PutBy(h, c, n, s.delivered[n].item) && TakenBy(h, c, n, s.delivered[n].reader))
    && (forall j :: 0 <= j < |s.queues.crate| ==> PutBy(h, c, c * rounds + First(st) + j, s.queues.crate[j]))
  }

  /** What has been signed stays signed. */
  lemma SignedLater(h: seq<Pid>, p: Pid, c: nat, n: nat)
    requires c >= 1
    ensures forall item :: PutBy(h, c, n, item) ==> PutBy(h + [p], c, n, item)
    ensures forall reader :: TakenBy(h, c, n, reader) ==> TakenBy(h + [p], c, n, reader)
  {
  }

  lemma StepsOf(c: nat, rounds: nat, k: nat)
    requires c >= 1 && k < c
    ensures PutAt(c, c * rounds + k) == Cycle(c) * rounds + 3 * k + 1
    ensures TakenAt(c, c * rounds + k) == Cycle(c) * rounds + 3 * c + 1 + k
    ensures (c * rounds + k) % c == k
  {
    RemainderOf(c, rounds, k);
  }

  /** Items are put in by `a` at one stage of a round, under its id, and taken out at another. */
  lemma Puts(s: State, c: nat, rounds: nat, st: Stage, p: Pid)
    requires At(s, c, rounds, st) && Next(s, p).Moved?
    ensures var t := Next(s, p).next;
            match st
            case Putting(k, _) => t.queues.crate == s.queues.crate + [Item(p, k)] && t.delivered == s.delivered
            case Draining(i, _) =>
              if i < c then
                && s.queues.crate != [] && t.queues.crate == s.queues.crate[1..]
                && t.delivered == s.delivered + [Delivery(p, s.queues.crate[0])]
              else s.queues.crate == t.queues.crate == [] && t.delivered == s.delivered
            case _ => t.queues.crate == s.queues.crate && t.delivered == s.delivered
  {
    MoverFits(s, c, rounds, st, p);
    hide InBatches, Indexed;
  }

  lemma SignedStep(s: State, c: nat, rounds: nat, st: Stage, h: seq<Pid>, p: Pid)
    requires At(s, c, rounds, st) && Signed(s, c, rounds, st, h) && Next(s, p).Moved?
    ensures Signed(Next(s, p).next, c, RoundsAfter(c, rounds, st), After(c, st, p), h + [p])
  {
    var t := Next(s, p).next;
    Puts(s, c, rounds, st, p);
    AtStep(s, c, rounds, st, p);
    AtSizes(s, c, rounds, st);
    hide At, Next, PutBy, TakenBy;
    forall n | 0 <= n < |t.delivered|
      ensures PutBy(h + [p], c, n, t.delivered[n].item) && TakenBy(h + [p], c, n, t.delivered[n].reader)
    {
      SignedLater(h, p, c, n);
      if n == |s.delivered| { TakesSigned(s, c, rounds, st, h, p); }
    }
    forall j | 0 <= j < |t.queues.crate|
      ensures PutBy(h + [p], c, c * RoundsAfter(c, rounds, st) + First(After(c, st, p)) + j, t.queues.crate[j])
    {
      CrateSigned(s, t, c, rounds, st, h, p, j);
    }
  }

  lemma AtSizes(s: State, c: nat, rounds: nat, st: Stage)
    requires At(s, c, rounds, st)
    ensures |s.delivered| == c * rounds + First(st) && |s.queues.crate| == CrateSize(c, st) && InRange(c, st) && c >= 1
  {
    hide Staffed, Indexed;
  }

  lemma TakesSigned(s: State, c: nat, rounds: nat, st: Stage, h: seq<Pid>, p: Pid)
    requires c >= 1 && InRange(c, st) && Signed(s, c, rounds, st, h)
    requires |s.delivered| == c * rounds + First(st) && st.Draining? && st.i < c && s.queues.crate != []
    ensures PutBy(h + [p], c, |s.delivered|, s.queues.crate[0]) && TakenBy(h + [p], c, |s.delivered|, p)
  {
    var n := |s.delivered|;
    StepsOf(c, rounds, st.i);
    assert c * rounds + First(st) + 0 == n;
    assert PutBy(h, c, n, s.queues.crate[0]);
    SignedLater(h, p, c, n);
  }

  lemma CrateSigned(s: State, t: State, c: nat, rounds: nat, st: Stage, h: seq<Pid>, p: Pid, j: nat)
    requires c >= 1 && InRange(c, st) && Signed(s, c, rounds, st, h) && j < |t.queues.crate|
    requires |s.queues.crate| == CrateSize(c, st)
    requires match st
             case Putting(k, _) => t.queues.crate == s.queues.crate + [Item(p, k)]
             case Draining(i, _) => if i < c then s.queues.crate != [] && t.queues.crate == s.queues.crate[1..]
                                    else t.queues.crate == []
             case _ => t.queues.crate == s.queues.crate
    ensures PutBy(h + [p], c, c * RoundsAfter(c, rounds, st) + First(After(c, st, p)) + j, t.queues.crate[j])
  {
    var n := c * rounds + First(st) + j;
    match st
    case Putting(k, _) =>
      SignedLater(h, p, c, n);
      if j == k {
        StepsOf(c, rounds, k);
        hide PutBy;
        PutNow(h, p, c, rounds, k);
      } else {
        assert PutBy(h, c, n, s.queues.crate[j]);
      }
    case Draining(i, _) =>
      assert c * rounds + First(st) + (j + 1) == n + 1;
      assert PutBy(h, c, n + 1, s.queues.crate[j + 1]);
      SignedLater(h, p, c, n + 1);
    case _ =>
      assert PutBy(h, c, n, s.queues.crate[j]);
      SignedLater(h, p, c, n);
  }

  lemma PutNow(h: seq<Pid>, p: Pid, c: nat, rounds: nat, k: nat)
    requires c >= 1 && k < c && |h| == Cycle(c) * rounds + 3 * k + 1
    ensures PutBy(h + [p], c, c * rounds + k, Item(p, k))
  {
    StepsOf(c, rounds, k);
  }

  lemma {:induction false} SignedRun(s: State, c: nat, rounds: nat, st: Stage, h: seq<Pid>, schedule: seq<Pid>)
    returns (rounds': nat, st': Stage)
    requires At(s, c, rounds, st) && Signed(s, c, rounds, st, h) && Run(s, schedule).Moved?
    ensures At(Run(s, schedule).next, c, rounds', st')
    ensures c >= 1 && Signed(Run(s, schedule).next, c, rounds', st', h + schedule)
    decreases |schedule|
  {
    assert c >= 1;
    hide At, Signed, Next, After, RoundsAfter;
    if schedule == [] {
      assert h + [] == h;
      rounds', st' := rounds, st;
    } else {
      var p := schedule[0];
      SignedStep(s, c, rounds, st, h, p);
      AtStep(s, c, rounds, st, p);
      assert h + [p] + schedule[1..] == h + schedule;
      rounds', st' := SignedRun(Next(s, p).next, c, RoundsAfter(c, rounds, st), After(c, st, p), h + [p], schedule[1..]);
    }
  }

  /** In every run with one token the n-th item delivered carries number n modulo the
      capacity and the id of the process that took step PutAt(c, n), and was read by the
      process that took step TakenAt(c, n). */
  lemma WhoPutWhoTook(s: State, c: nat, schedule: seq<Pid>, n: nat)
    requires Initial(s, c) && Run(s, schedule).Moved? && n < |Run(s, schedule).next.delivered|
    ensures PutAt(c, n) < TakenAt(c, n) < |schedule|
    ensures Run(s, schedule).next.delivered[n] == Delivery(schedule[TakenAt(c, n)], Item(schedule[PutAt(c, n)], n % c))
  {
    AtInitial(s, c);
    var rounds, st := SignedRun(s, c, 0, Waiting(0), [], schedule);
    assert [] + schedule == schedule;
    assert PutBy(schedule, c, n, Run(s, schedule).next.delivered[n].item);
  }

  // ---- nobody blocks but at the top of a loop ----

  /** The one process past the top of its loop is never blocked; the others wait
      for a message that is not there, and nothing ever faults. */
  lemma OnlyIdleBlocks(s: State, c: nat, rounds: nat, st: Stage, p: Pid)
    requires At(s, c, rounds, st) && p in s.procs
    ensures !Next(s, p).Fault?
    ensures Next(s, p).Blocked? ==> s.procs[p].Idle()
    ensures st.Waiting? && s.procs[p] == AwaitToken ==> Next(s, p).Moved?
    ensures st.Handed? && s.procs[p] == AwaitHandover ==> Next(s, p).Moved?
    ensures Next(s, p).Blocked? && s.procs[p] == AwaitToken ==> s.queues.producers == []
    ensures Next(s, p).Blocked? && s.procs[p] == AwaitHandover ==> s.queues.consumers == []
  {
    hide InBatches;
  }

  lemma NeverStuck(s: State, c: nat, rounds: nat, st: Stage, producer: Pid, consumer: Pid)
    requires At(s, c, rounds, st)
    requires producer in s.procs && s.procs[producer].IsProducer()
    requires consumer in s.procs && !s.procs[consumer].IsProducer()
    ensures exists p :: Next(s, p).Moved?
  {
    var p := match st
      case Waiting(_) => producer
      case Handed => consumer
      case _ => st.a;
    hide InBatches, Indexed, Next;
    OnlyIdleBlocks(s, c, rounds, st, p);
    assert Next(s, p).Moved?;
  }

  lemma RoleKept(s: State, p: Pid)
    requires Next(s, p).Moved?
    ensures var t := Next(s, p).next;
            && t.procs.Keys == s.procs.Keys
            && forall q :: q in s.procs ==> t.procs[q].IsProducer() == s.procs[q].IsProducer()
  {
  }

  lemma {:induction false} RolesKept(s: State, schedule: seq<Pid>)
    requires Run(s, schedule).Moved?
    ensures var t := Run(s, schedule).next;
            && t.procs.Keys == s.procs.Keys
            && forall q :: q in s.procs ==> t.procs[q].IsProducer() == s.procs[q].IsProducer()
    decreases |schedule|
  {
    hide Next;
    if schedule == [] {
    } else {
      RoleKept(s, schedule[0]);
      RolesKept(Next(s, schedule[0]).next, schedule[1..]);
    }
  }

  /** With a producer and a consumer, no schedule deadlocks or faults. */
  lemma NoDeadlock(s: State, c: nat, schedule: seq<Pid>, producer: Pid, consumer: Pid)
    requires Initial(s, c) && Run(s, schedule).Moved?
    requires producer in s.procs && s.procs[producer].IsProducer()
    requires consumer in s.procs && !s.procs[consumer].IsProducer()
    ensures exists p :: Next(Run(s, schedule).next, p).Moved?
    ensures forall p :: !Next(Run(s, schedule).next, p).Fault?
  {
    AtInitial(s, c);
    hide At, Next, Initial;
    var rounds, st := AtRun(s, c, 0, Waiting(0), schedule);
    var t := Run(s, schedule).next;
    RolesKept(s, schedule);
    NeverStuck(t, c, rounds, st, producer, consumer);
    forall p ensures !Next(t, p).Fault? {
      if p in t.procs { OnlyIdleBlocks(t, c, rounds, st, p); } else { Absent(t, p); }
    }
  }

  lemma Absent(s: State, p: Pid)
    requires p !in s.procs
    ensures Next(s, p).Blocked?
  {
  }
}

/** What is sent through the queues is text: the messages survive being printed
    into a 30-byte buffer and scanned back. */
module TokenText {
  import opened Numerals
  import opened TokenProgram

  const MAX_MSG_SIZE: nat := 30

  /** The largest process id and crate capacity that the texts have to hold. */
  predicate Printable(m: Message) {
    match m
    case Token(c, k) => c <= |ITEM_NAMES| && k <= |ITEM_NAMES|
    case Handover(c) => c <= |ITEM_NAMES|
    case Item(p, k) => p < Power10(10) && k < |ITEM_NAMES|
  }

  function Text(m: Message): string
    requires m.Item? ==> m.index < |ITEM_NAMES|
  {
    match m
    case Token(c, k) => Decimal(c) + " " + Decimal(k)
    case Handover(c) => Decimal(c)
    case Item(p, k) => "(" + Decimal(p) + "): " + ITEM_NAMES[k]
  }

  datatype Scanned = Two(capacity: int, index: int) | Fewer

  /** sscanf with "%d %d". */
  function ScanTwo(s: string): Scanned {
    match ScanInt(s)
    case NoMatch => Fewer
    case Match(c, n) =>
      ScanAdvances(s);
      match ScanInt(s[n..])
      case NoMatch => Fewer
      case Match(k, _) => Two(c, k)
  }

  lemma TokenTextScans(c: nat, k: nat)
    ensures ScanTwo(Text(Token(c, k))) == Two(c, k)
  {
    var s := Text(Token(c, k));
    assert s == Decimal(c) + (" " + Decimal(k));
    ScanDecimal(c, " " + Decimal(k));
    assert s[|Decimal(c)|..] == [' '] + Decimal(k);
    ScanAfterSpace(' ', Decimal(k));
    ScanDecimal(k, []);
    assert Decimal(k) + [] == Decimal(k);
  }

  /** An item's text is its producer's id, which scans back, and its name. */
  lemma ItemTextScans(p: nat, k: nat)
    requires k < |ITEM_NAMES|
    ensures var t, n := Text(Item(p, k)), |Decimal(p)|;
            && |t| > n && t[0] == '(' && ScanInt(t[1..]) == Match(p, n)
            && t[1 + n..] == "): " + ITEM_NAMES[k]
  {
    hide Decimal, ScanInt;
    var rest := "): " + ITEM_NAMES[k];
    assert Text(Item(p, k))[1..] == Decimal(p) + rest;
    assert Text(Item(p, k))[1 + |Decimal(p)|..] == rest;
    ScanDecimal(p, rest);
  }

  lemma SomeTexts()
    ensures Text(Item(1234, 0)) == "(1234): jedna" && Text(Item(7, 7)) == "(7): osm" && Text(Item(7, 4)) == "(7): pet"
    ensures Text(Token(5, 0)) == "5 0" && Text(Handover(5)) == "5"
  {
    assert Decimal(7) == "7" && Decimal(5) == "5" && Decimal(0) == "0";
    assert Decimal(12) == "12" by { assert Decimal(1) == "1"; }
    assert Decimal(123) == "123";
    assert Decimal(1234) == "1234";
  }

  lemma HandoverTextScans(c: nat)
    ensures ScanInt(Text(Handover(c))) == Match(c, |Text(Handover(c))|)
  {
    ScanDecimal(c, []);
    assert Decimal(c) + [] == Decimal(c);
  }

  lemma TextHasNoNul(m: Message)
    requires m.Item? ==> m.index < |ITEM_NAMES|
    ensures forall i :: 0 <= i < |Text(m)| ==> Text(m)[i] != '\0'
  {
    match m
    case Token(c, k) => DecimalDigits(c); DecimalDigits(k);
    case Handover(c) => DecimalDigits(c);
    case Item(p, k) =>
      DecimalDigits(p);
      NameHasNoNul(k);
  }

  lemma NameHasNoNul(k: nat)
    requires k < |ITEM_NAMES|
    ensures |ITEM_NAMES[k]| <= 5
    ensures forall i :: 0 <= i < |ITEM_NAMES[k]| ==> ITEM_NAMES[k][i] != '\0'
  {
    assert k == 0 || k == 1 || k == 2 || k == 3 || k == 4 || k == 5 || k == 6 || k == 7;
  }

  lemma TextFits(m: Message)
    requires Printable(m)
    ensures |Text(m)| < MAX_MSG_SIZE
  {
    match m
    case Token(c, k) =>
    case Handover(c) =>
    case Item(p, k) =>
      DecimalLength(p, 10, Power10(10));
      NameHasNoNul(k);
  }

  /** A message buffer carries a message when its C string is the message's text. */
  predicate Carries(buffer: seq<char>, m: Message)
    requires m.Item? ==> m.index < |ITEM_NAMES|
  {
    |buffer| == MAX_MSG_SIZE && CString(buffer) == Text(m)
  }

  /** Whatever the buffer held before, printing a message into it stays inside and
      makes it carry that message, and no other one of the same kind. */
  lemma PrintedBufferCarries(buffer: seq<char>, m: Message)
    requires |buffer| == MAX_MSG_SIZE && Printable(m)
    ensures |Text(m)| < MAX_MSG_SIZE && Carries(Sprintf(buffer, 0, Text(m)), m)
  {
    hide Text;
    TextFits(m);
    TextHasNoNul(m);
    var rest := buffer[|Text(m)| + 1..];
    CStringOf(Text(m), rest);
    assert Sprintf(buffer, 0, Text(m)) == Text(m) + ['\0'] + rest;
  }

  /** The receiver scans back exactly what the sender printed. */
  lemma ReceivedIsSent(buffer: seq<char>, m: Message)
    requires m.Item? ==> m.index < |ITEM_NAMES|
    requires Carries(buffer, m)
    ensures m.Token? ==> ScanTwo(CString(buffer)) == Two(m.capacity, m.index)
    ensures m.Handover? ==> ScanInt(CString(buffer)).Match? && ScanInt(CString(buffer)).value == m.capacity
  {
    hide ScanInt, ScanTwo, CString, Text;
    match m
    case Token(c, k) => TokenTextScans(c, k);
    case Handover(c) => HandoverTextScans(c);
    case Item(_, _) =>
  }
}

/** The token protocol with more tokens than producers: the queue of tokens makes the
    producers add to other batches before one is complete, so with too small a crate
    queue none ever is. */
module SlowBatches {
  import opened Processes
  import opened Tally
  import opened TokenProgram
  import opened TokenProtocol
  import L = TokenLimits

  function OneProducer(proc: Proc): nat { if proc.IsProducer() then 1 else 0 }

  ghost function ProducerCount(s: State): nat { Total(s.procs, OneProducer) }

  /** The rounds that the token in a process's hands has completed: an item counts when
      the token is passed on. */
  function Rounds(proc: Proc): nat {
    match proc
    case PutItem(_, k) => k
    case PassToken(_, k) => if k == 0 then 0 else k - 1
    case _ => 0
  }

  function Passing(proc: Proc): nat { if proc.PassToken? then 1 else 0 }

  /** All rounds of all tokens. */
  ghost function AllRounds(s: State): nat { L.Indices(s.queues.producers) + Total(s.procs, Rounds) }

  /** What `k` rounds of one token cost: each takes a round of every token but those that
      the other producers can hold back. */
  function Cost(d: nat, k: nat): nat { (d + 1) * k }

  lemma CostNext(d: nat, k: nat)
    ensures Cost(d, k + 1) == Cost(d, k) + d + 1 && Cost(d, 0) == 0
  {
  }

  predicate Early(c: nat, proc: Proc) {
    || proc.Idle()
    || (proc.PutItem? && proc.capacity == c && proc.index < c)
    || (proc.PassToken? && proc.capacity == c && 1 <= proc.index < c)
  }

  /** No batch is complete, and every token that has come some way has let the others do so. */
  ghost predicate Slow(s: State, c: nat, d: nat) {
    && 1 <= c <= |ITEM_NAMES| && s.bound <= Cost(d, c - 1)
    && s.queues.consumers == [] && s.delivered == []
    && L.ProperQueues(s.queues, c) && (forall p :: p in s.procs ==> Early(c, s.procs[p]))
    && |s.queues.producers| + Total(s.procs, L.Holding) == d + ProducerCount(s)
    && |s.queues.crate| == AllRounds(s) + Total(s.procs, Passing)
    && (forall p :: p in s.procs ==> Cost(d, Rounds(s.procs[p])) <= AllRounds(s))
    && (forall j :: 0 <= j < |s.queues.producers| ==> Behind(s, d, j))
  }

  /** A token in the queue may have cost a little more: those in front of it are still
      to be taken, and only so many can be held. */
  ghost predicate Behind(s: State, d: nat, j: nat)
    requires j < |s.queues.producers|
  {
    var k := L.Index(s.queues.producers[j]);
    k >= 1 ==> Cost(d, k) + ProducerCount(s) <= AllRounds(s) + j + 1 + Total(s.procs, L.Holding)
  }

  // ---- sums ----

  /** How the step of `p` changes the sums. */
  lemma SumsMove(s: State, t: State, p: Pid)
    requires p in s.procs && p in t.procs && t.procs == s.procs[p := t.procs[p]]
    ensures Total(t.procs, Rounds) + Rounds(s.procs[p]) == Total(s.procs, Rounds) + Rounds(t.procs[p])
    ensures Total(t.procs, Passing) + Passing(s.procs[p]) == Total(s.procs, Passing) + Passing(t.procs[p])
    ensures Total(t.procs, L.Holding) + L.Holding(s.procs[p]) == Total(s.procs, L.Holding) + L.Holding(t.procs[p])
    ensures ProducerCount(t) + OneProducer(s.procs[p]) == ProducerCount(s) + OneProducer(t.procs[p])
  {
    TotalUpdate(s.procs, Rounds, p, t.procs[p]);
    TotalUpdate(s.procs, Passing, p, t.procs[p]);
    TotalUpdate(s.procs, L.Holding, p, t.procs[p]);
    TotalUpdate(s.procs, OneProducer, p, t.procs[p]);
  }

  /** An idle producer is one that holds no token. */
  lemma ProducerFree(s: State, c: nat, p: Pid)
    requires p in s.procs && s.procs[p] == AwaitToken && forall q :: q in s.procs ==> Early(c, s.procs[q])
    ensures Total(s.procs, L.Holding) + 1 <= ProducerCount(s)
  {
    TotalRemove(s.procs, L.Holding, p);
    TotalRemove(s.procs, OneProducer, p);
    TotalMonotone(s.procs - {p}, L.Holding, OneProducer);
  }

  // ---- steps ----

  /** What a step leaves to be shown, given how it changes the rounds and the queue. */
  lemma StillSlow(s: State, t: State, c: nat, d: nat, p: Pid)
    requires Slow(s, c, d) && p in s.procs && p in t.procs && t.procs == s.procs[p := t.procs[p]]
    requires t.bound == s.bound && t.queues.consumers == [] && t.delivered == []
    requires L.ProperQueues(t.queues, c) && Early(c, t.procs[p])
    requires ProducerCount(t) == ProducerCount(s) && AllRounds(t) >= AllRounds(s)
    requires |t.queues.producers| + Total(t.procs, L.Holding) == |s.queues.producers| + Total(s.procs, L.Holding)
    requires |t.queues.crate| == AllRounds(t) + Total(t.procs, Passing)
    requires Cost(d, Rounds(t.procs[p])) <= AllRounds(t)
    requires forall j :: 0 <= j < |t.queues.producers| ==> Behind(t, d, j)
    ensures Slow(t, c, d)
  {
    hide Cost, AllRounds, Behind, ProducerCount, Total, L.ProperQueues;
  }

  lemma TakeShape(s: State, c: nat, d: nat, p: Pid)
    requires Slow(s, c, d) && p in s.procs && s.procs[p] == AwaitToken && Next(s, p).Moved?
    ensures s.queues.producers != []
    ensures var q, t := s.queues.producers, Next(s, p).next;
            && q[0].Token? && q[0].index < c && t.bound == s.bound && t.delivered == s.delivered
            && t.procs == s.procs[p := PutItem(c, q[0].index)] && t.queues == s.queues.(producers := q[1..])
  {
    hide Cost, AllRounds, Behind, ProducerCount, Total;
  }

  lemma TakeKeeps(s: State, c: nat, d: nat, p: Pid)
    requires Slow(s, c, d) && p in s.procs && s.procs[p] == AwaitToken && Next(s, p).Moved?
    ensures Slow(Next(s, p).next, c, d)
  {
    TakeShape(s, c, d, p);
    var q, t := s.queues.producers, Next(s, p).next;
    SumsMove(s, t, p);
    ProducerFree(s, c, p);
    assert Behind(s, d, 0);
    CostNext(d, 0);
    hide Next, Cost, Total;
    assert AllRounds(t) == AllRounds(s);
    forall j | 0 <= j < |t.queues.producers| ensures Behind(t, d, j) {
      assert Behind(s, d, j + 1);
      assert q[1..][j] == q[j + 1];
    }
    StillSlow(s, t, c, d, p);
  }

  lemma PutShape(s: State, p: Pid, c: nat, k: nat)
    requires p in s.procs && s.procs[p] == PutItem(c, k) && Next(s, p).Moved?
    ensures var t := Next(s, p).next;
            && |s.queues.crate| < s.bound && t.procs == s.procs[p := PassToken(c, k + 1)] && t.bound == s.bound
            && t.queues == s.queues.(crate := s.queues.crate + [Item(p, k)]) && t.delivered == s.delivered
  {
  }

  lemma PutKeeps(s: State, c: nat, d: nat, p: Pid)
    requires Slow(s, c, d) && p in s.procs && s.procs[p].PutItem? && Next(s, p).Moved?
    ensures Slow(Next(s, p).next, c, d)
  {
    var k := s.procs[p].index;
    PutShape(s, p, c, k);
    var t := Next(s, p).next;
    SumsMove(s, t, p);
    assert k + 1 < c by { NotTheLast(s, c, d, p, k); }
    hide Next, Cost, Total;
    assert AllRounds(t) == AllRounds(s);
    forall j | 0 <= j < |t.queues.producers| ensures Behind(t, d, j) {
      assert Behind(s, d, j);
    }
    StillSlow(s, t, c, d, p);
  }

  /** The item that would complete a batch finds the crate full. */
  lemma NotTheLast(s: State, c: nat, d: nat, p: Pid, k: nat)
    requires Slow(s, c, d) && p in s.procs && s.procs[p] == PutItem(c, k) && |s.queues.crate| < s.bound
    ensures k + 1 < c
  {
    hide Cost, Behind, Total, AllRounds;
    assert Cost(d, Rounds(s.procs[p])) <= AllRounds(s);
  }

  lemma PassShape(s: State, p: Pid, c: nat, k: nat)
    requires p in s.procs && s.procs[p] == PassToken(c, k) && k != c && Next(s, p).Moved?
    ensures var t := Next(s, p).next;
            && t.procs == s.procs[p := AwaitToken] && t.bound == s.bound && t.delivered == s.delivered
            && t.queues == s.queues.(producers := s.queues.producers + [Token(c, k)])
  {
  }

  lemma ProperAfter(q: Queues, c: nat, k: nat)
    requires L.ProperQueues(q, c) && k < c
    ensures L.ProperQueues(q.(producers := q.producers + [Token(c, k)]), c)
  {
  }

  lemma PassKeeps(s: State, c: nat, d: nat, p: Pid)
    requires Slow(s, c, d) && p in s.procs && s.procs[p].PassToken? && Next(s, p).Moved?
    ensures Slow(Next(s, p).next, c, d)
  {
    var k := s.procs[p].index;
    PassShape(s, p, c, k);
    var t := Next(s, p).next;
    ProperAfter(s.queues, c, k);
    hide Next, Total, L.Indices, L.ProperQueues, ProducerCount, AllRounds, Behind;
    assert Cost(d, Rounds(s.procs[p])) <= AllRounds(s);
    CostNext(d, k - 1);
    CostNext(d, 0);
    hide Cost;
    PassCounts(s, t, c, p, k);
    PassBehind(s, t, d, p, Token(c, k));
    StillSlow(s, t, c, d, p);
  }

  /** A token passed on has done one more round. */
  lemma PassCounts(s: State, t: State, c: nat, p: Pid, k: nat)
    requires p in s.procs && s.procs[p] == PassToken(c, k) && k >= 1 && t.procs == s.procs[p := AwaitToken]
    requires t.queues.producers == s.queues.producers + [Token(c, k)]
    ensures AllRounds(t) == AllRounds(s) + 1 && ProducerCount(t) == ProducerCount(s)
    ensures Total(t.procs, L.Holding) + 1 == Total(s.procs, L.Holding)
    ensures Total(t.procs, Passing) + 1 == Total(s.procs, Passing)
  {
    hide Total, L.Indices, ProducerCount;
    SumsMove(s, t, p);
    L.IndicesAppend(s.queues.producers, Token(c, k));
  }

  /** A token passed on comes last and at most one round ahead. */
  lemma PassBehind(s: State, t: State, d: nat, p: Pid, m: Message)
    requires t.queues.producers == s.queues.producers + [m] && AllRounds(t) == AllRounds(s) + 1
    requires ProducerCount(t) == ProducerCount(s)
    requires Total(t.procs, L.Holding) + 1 == Total(s.procs, L.Holding)
    requires forall j :: 0 <= j < |s.queues.producers| ==> Behind(s, d, j)
    requires L.Index(m) >= 1 ==>
      Cost(d, L.Index(m)) + ProducerCount(s) <= AllRounds(t) + |t.queues.producers| + Total(t.procs, L.Holding)
    ensures forall j :: 0 <= j < |t.queues.producers| ==> Behind(t, d, j)
  {
    hide Cost, Total, AllRounds, ProducerCount;
    forall j | 0 <= j < |t.queues.producers| ensures Behind(t, d, j) {
      if j < |s.queues.producers| { assert Behind(s, d, j); }
    }
  }

  lemma SlowStep(s: State, c: nat, d: nat, p: Pid)
    requires Slow(s, c, d) && Next(s, p).Moved?
    ensures Slow(Next(s, p).next, c, d)
  {
    NoneHandedOver(s, c, d, p);
    hide Slow, Next;
    match s.procs[p]
    case AwaitToken => TakeKeeps(s, c, d, p);
    case PutItem(_, _) => PutKeeps(s, c, d, p);
    case PassToken(_, _) => PassKeeps(s, c, d, p);
    case _ =>
  }

  lemma NoneHandedOver(s: State, c: nat, d: nat, p: Pid)
    requires Slow(s, c, d) && Next(s, p).Moved?
    ensures p in s.procs && (s.procs[p] == AwaitToken || s.procs[p].PutItem? || s.procs[p].PassToken?)
  {
    hide Cost, Behind, Total, AllRounds, L.ProperQueues;
  }

  lemma {:induction false} SlowRun(s: State, c: nat, d: nat, schedule: seq<Pid>)
    requires Slow(s, c, d) && Run(s, schedule).Moved?
    ensures Slow(Run(s, schedule).next, c, d)
    decreases |schedule|
  {
    hide Slow, Next;
    if schedule == [] {
    } else {
      SlowStep(s, c, d, schedule[0]);
      SlowRun(Next(s, schedule[0]).next, c, d, schedule[1..]);
    }
  }

  lemma SlowStart(s: State, c: nat, n: nat)
    requires L.StartedWith(s, c, n) && 1 <= c <= |ITEM_NAMES| && ProducerCount(s) <= n
    requires s.bound <= Cost(n - ProducerCount(s), c - 1)
    ensures Slow(s, c, n - ProducerCount(s))
  {
    TotalZero(s.procs, Rounds);
    TotalZero(s.procs, Passing);
    TotalZero(s.procs, L.Holding);
    L.IndicesBound(s.queues.producers, 0);
    CostNext(n - ProducerCount(s), 0);
    hide Cost;
  }

  /** With a crate queue too small for the batches that must grow together nothing is ever
      delivered. */
  lemma NothingDelivered(s: State, c: nat, n: nat, schedule: seq<Pid>)
    requires L.StartedWith(s, c, n) && 1 <= c <= |ITEM_NAMES| && ProducerCount(s) <= n
    requires s.bound <= (n - ProducerCount(s) + 1) * (c - 1) && Run(s, schedule).Moved?
    ensures Run(s, schedule).next.delivered == []
  {
    SlowStart(s, c, n);
    SlowRun(s, c, n - ProducerCount(s), schedule);
    hide Run, Cost;
  }
}

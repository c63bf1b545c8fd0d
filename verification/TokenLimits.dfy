/** With how many tokens, and for which capacities, the protocol runs on. */
module TokenLimits {
  import opened Processes
  import opened Tally
  import opened Modular
  import opened TokenProgram
  import opened TokenProtocol
  import TokenPhases

  predicate CanMove(s: State, p: Pid) { Next(s, p).Moved? }

  ghost predicate RunsOn(s: State) {
    forall schedule :: Run(s, schedule).Moved? ==> exists p :: CanMove(Run(s, schedule).next, p)
  }

  /** All processes at the top of their loops and `n` initial messages sent. */
  ghost predicate StartedWith(s: State, c: nat, n: nat) {
    && s.queues == Queues(seq(n, (_: nat) => Token(c, 0)), [], [])
    && (forall p :: p in s.procs ==> s.procs[p].Idle())
    && s.delivered == [] && n <= s.bound
  }

  // ---- tokens and items are conserved ----

  function Holding(proc: Proc): nat { if proc.Idle() then 0 else 1 }

  /** The items in the crate that the token in a process's hands accounts for. */
  function Carrying(c: nat, proc: Proc): nat {
    match proc
    case PutItem(_, k) => k
    case PassToken(_, k) => k
    case TakeItem(_, i) => if i <= c then c - i else 0
    case _ => 0
  }

  function CarryingOf(c: nat): Proc -> nat { (proc: Proc) => Carrying(c, proc) }

  function Index(m: Message): nat { if m.Token? then m.index else 0 }

  function Indices(q: seq<Message>): nat { if q == [] then 0 else Index(q[0]) + Indices(q[1..]) }

  lemma {:induction false} IndicesAppend(q: seq<Message>, m: Message)
    ensures Indices(q + [m]) == Indices(q) + Index(m)
    decreases |q|
  {
    if q == [] {
      assert q + [m] == [m];
    } else {
      assert (q + [m])[1..] == q[1..] + [m];
      IndicesAppend(q[1..], m);
    }
  }

  lemma {:induction false} IndicesBound(q: seq<Message>, k: nat)
    requires forall i :: 0 <= i < |q| ==> Index(q[i]) <= k
    ensures Indices(q) <= |q| * k
    decreases |q|
  {
    if q == [] {
    } else {
      IndicesBound(q[1..], k);
    }
  }

  predicate Proper(c: nat, proc: Proc) {
    match proc
    case PutItem(d, k) => d == c && k < c
    case PassToken(d, k) => d == c && k <= c
    case TakeItem(d, i) => d == c && i < c
    case ReturnToken(d) => d == c
    case _ => true
  }

  ghost predicate ProperQueues(q: Queues, c: nat) {
    && (forall i :: 0 <= i < |q.producers| ==> q.producers[i].Token? && q.producers[i].capacity == c && q.producers[i].index < c)
    && (forall i :: 0 <= i < |q.consumers| ==> q.consumers[i] == Handover(c))
    && (forall i :: 0 <= i < |q.crate| ==> q.crate[i].Item?)
  }

  /** What the queues account for: tokens, and items beyond those in the crate. */
  function Tokens(q: Queues): nat { |q.producers| + |q.consumers| }

  function Items(q: Queues, c: nat): nat { Indices(q.producers) + c * |q.consumers| }

  ghost predicate Inv(s: State, c: nat, n: nat) {
    && 1 <= c <= |ITEM_NAMES|
    && ProperQueues(s.queues, c) && (forall p :: p in s.procs ==> Proper(c, s.procs[p]))
    && n == Tokens(s.queues) + Total(s.procs, Holding)
    && |s.queues.crate| == Items(s.queues, c) + Total(s.procs, CarryingOf(c))
  }

  /** A step moves tokens and items between queues and hands. */
  ghost predicate Conserves(s: State, t: State, p: Pid, c: nat)
    requires p in s.procs
  {
    && p in t.procs && t.procs == s.procs[p := t.procs[p]] && t.bound == s.bound
    && ProperQueues(t.queues, c) && Proper(c, t.procs[p])
    && Tokens(t.queues) + Holding(t.procs[p]) == Tokens(s.queues) + Holding(s.procs[p])
    && |t.queues.crate| + Items(s.queues, c) + Carrying(c, s.procs[p])
       == |s.queues.crate| + Items(t.queues, c) + Carrying(c, t.procs[p])
  }

  lemma SendConserves(s: State, p: Pid, c: nat)
    requires 1 <= c && ProperQueues(s.queues, c) && p in s.procs && Proper(c, s.procs[p]) && Next(s, p).Moved?
    requires s.procs[p].PassToken? || s.procs[p].ReturnToken?
    ensures Conserves(s, Next(s, p).next, p, c)
  {
    hide Indices;
    match s.procs[p]
    case PassToken(_, k) => IndicesAppend(s.queues.producers, Token(c, k)); Times(c, |s.queues.consumers|);
    case ReturnToken(_) => IndicesAppend(s.queues.producers, Token(c, 0));
  }

  lemma AwaitConserves(s: State, p: Pid, c: nat)
    requires 1 <= c && ProperQueues(s.queues, c) && p in s.procs && Next(s, p).Moved? && s.procs[p].Idle()
    ensures Conserves(s, Next(s, p).next, p, c)
  {
    if s.procs[p].AwaitHandover? {
      Times(c, |s.queues.consumers| - 1);
      hide Indices;
    }
  }

  lemma ItemConserves(s: State, p: Pid, c: nat)
    requires 1 <= c && ProperQueues(s.queues, c) && p in s.procs && Proper(c, s.procs[p]) && Next(s, p).Moved?
    requires s.procs[p].PutItem? || s.procs[p].TakeItem?
    ensures Conserves(s, Next(s, p).next, p, c)
  {
    hide Indices;
  }

  lemma StepConserves(s: State, p: Pid, c: nat)
    requires 1 <= c && ProperQueues(s.queues, c) && p in s.procs && Proper(c, s.procs[p]) && Next(s, p).Moved?
    ensures Conserves(s, Next(s, p).next, p, c)
  {
    hide Conserves, Next, ProperQueues, Proper;
    if s.procs[p].Idle() {
      AwaitConserves(s, p, c);
    } else if s.procs[p].PutItem? || s.procs[p].TakeItem? {
      ItemConserves(s, p, c);
    } else {
      SendConserves(s, p, c);
    }
  }

  lemma Times(c: nat, x: nat)
    ensures c * (x + 1) == c * x + c
  {
  }

  lemma InvStep(s: State, p: Pid, c: nat, n: nat)
    requires Inv(s, c, n) && Next(s, p).Moved?
    ensures Inv(Next(s, p).next, c, n)
  {
    InHand(s, p);
    StepConserves(s, p, c);
    hide Next, ProperQueues, Proper, Tokens, Items, Carrying, Holding;
    var t := Next(s, p).next;
    assert t.procs - {p} == s.procs - {p};
    TotalRemove(s.procs, Holding, p);
    TotalRemove(t.procs, Holding, p);
    TotalRemove(s.procs, CarryingOf(c), p);
    TotalRemove(t.procs, CarryingOf(c), p);
  }

  lemma InHand(s: State, p: Pid)
    requires Next(s, p).Moved?
    ensures p in s.procs
  {
  }

  lemma {:induction false} InvRun(s: State, c: nat, n: nat, schedule: seq<Pid>)
    requires Inv(s, c, n) && Run(s, schedule).Moved?
    ensures Inv(Run(s, schedule).next, c, n)
    decreases |schedule|
  {
    hide Inv, Next;
    if schedule == [] {
    } else {
      InvStep(s, schedule[0], c, n);
      InvRun(Next(s, schedule[0]).next, c, n, schedule[1..]);
    }
  }

  lemma InvInitial(s: State, c: nat, n: nat)
    requires StartedWith(s, c, n) && 1 <= c <= |ITEM_NAMES|
    ensures Inv(s, c, n)
  {
    TotalZero(s.procs, Holding);
    TotalZero(s.procs, CarryingOf(c));
    IndicesBound(s.queues.producers, 0);
  }

  // ---- enough room for the unfinished batches of all tokens ----

  /** A process that holds a token and cannot step is a producer in front of a full crate. */
  lemma HolderBlocked(s: State, c: nat, n: nat, p: Pid)
    requires Inv(s, c, n) && n <= s.bound && p in s.procs && !s.procs[p].Idle() && !CanMove(s, p)
    ensures s.procs[p].PutItem? && s.procs[p].index < c && |s.queues.crate| >= s.bound
  {
    TotalRemove(s.procs, Holding, p);
    TotalRemove(s.procs, CarryingOf(c), p);
    hide Indices;
  }

  lemma {:induction false} CarryBound(procs: map<Pid, Proc>, c: nat)
    requires c >= 1
    requires forall p :: p in procs ==> procs[p].Idle() || (procs[p].PutItem? && procs[p].index < c)
    ensures Total(procs, CarryingOf(c)) <= Total(procs, Holding) * (c - 1)
    decreases |procs|
  {
    if procs == map[] {
    } else {
      var p := Pick(procs);
      CarryBound(procs - {p}, c);
      TotalRemove(procs, CarryingOf(c), p);
      TotalRemove(procs, Holding, p);
      Share(Holding(procs[p]), Total(procs - {p}, Holding), c - 1);
    }
  }

  lemma Share(a: nat, b: nat, k: nat)
    ensures (a + b) * k == a * k + b * k
  {
  }

  lemma IdleMoves(s: State, c: nat, n: nat, p: Pid)
    requires Inv(s, c, n) && p in s.procs
    ensures s.procs[p] == AwaitToken && s.queues.producers != [] ==> CanMove(s, p)
    ensures s.procs[p] == AwaitHandover && s.queues.consumers != [] ==> CanMove(s, p)
  {
    hide Indices;
  }

  /** Without complete batches the crate holds at most `c - 1` items for every token. */
  lemma CrateAtMost(s: State, c: nat, n: nat)
    requires Inv(s, c, n) && s.queues.consumers == []
    requires forall p :: p in s.procs ==> s.procs[p].Idle() || (s.procs[p].PutItem? && s.procs[p].index < c)
    ensures |s.queues.crate| <= n * (c - 1)
  {
    IndicesBound(s.queues.producers, c - 1);
    CarryBound(s.procs, c);
    Share(|s.queues.producers|, Total(s.procs, Holding), c - 1);
  }

  lemma SomeTokenWaits(s: State, c: nat, n: nat)
    requires Inv(s, c, n) && n >= 1 && forall p :: p in s.procs ==> s.procs[p].Idle()
    ensures s.queues.producers != [] || s.queues.consumers != []
  {
    TotalZero(s.procs, Holding);
  }

  lemma SomeoneMoves(s: State, c: nat, n: nat, producer: Pid, consumer: Pid)
    requires Inv(s, c, n) && 1 <= n <= s.bound && n * (c - 1) < s.bound
    requires producer in s.procs && s.procs[producer].IsProducer()
    requires consumer in s.procs && !s.procs[consumer].IsProducer()
    ensures exists p :: CanMove(s, p)
  {
    hide CanMove, Inv;
    if !exists p :: CanMove(s, p) {
      forall p | p in s.procs && !s.procs[p].Idle()
        ensures s.procs[p].PutItem? && s.procs[p].index < c && |s.queues.crate| >= s.bound
      {
        HolderBlocked(s, c, n, p);
      }
      IdleMoves(s, c, n, consumer);
      IdleMoves(s, c, n, producer);
      CrateAtMost(s, c, n);
      SomeTokenWaits(s, c, n);
    }
  }

  // ---- too little room ----

  /** Producer `p` has put `m` items behind those in `pre` on its own, one for each of
      the `n` tokens in the queue in turn. */
  ghost predicate Lone(s: State, p: Pid, c: nat, n: nat, m: nat, pre: seq<Message>) {
    && p in s.procs && s.procs[p] == AwaitToken
    && 1 <= n <= s.bound && s.queues.consumers == []
    && |s.queues.crate| == |pre| + m && |s.queues.producers| == n && pre <= s.queues.crate
    && (forall j :: 0 <= j < n ==> s.queues.producers[j] == Token(c, (m + j) / n))
    && (forall j :: 0 <= j < m ==> s.queues.crate[|pre| + j] == Item(p, j / n))
  }

  lemma LoneItem(s: State, p: Pid, c: nat, n: nat, m: nat, pre: seq<Message>)
    requires Lone(s, p, c, n, m, pre) && |pre| + m < s.bound && m / n < |ITEM_NAMES| && m / n + 1 != c
    ensures Run(s, [p, p, p]).Moved? && Lone(Run(s, [p, p, p]).next, p, c, n, m + 1, pre)
    ensures var t := Run(s, [p, p, p]).next; t.bound == s.bound && t.procs == s.procs && t.delivered == s.delivered
  {
    var k, q := m / n, s.queues;
    assert q.producers[0] == Token(c, (m + 0) / n);
    var t := TakesPutsPasses(s, p, c, k);
    OneTurn(m, n);
    hide Run, Next;
    assert forall j :: 0 <= j < n - 1 ==> t.queues.producers[j] == q.producers[j + 1];
  }

  /** A producer takes a token, puts its item and passes it on, with room for both. */
  lemma TakesPutsPasses(s: State, p: Pid, c: nat, k: nat) returns (t: State)
    requires p in s.procs && s.procs[p] == AwaitToken && s.queues.producers != [] && s.queues.producers[0] == Token(c, k)
    requires |s.queues.crate| < s.bound && |s.queues.producers| <= s.bound && k < |ITEM_NAMES| && k + 1 != c
    ensures Run(s, [p, p, p]) == Moved(t)
    ensures t == s.(queues := Queues(s.queues.producers[1..] + [Token(c, k + 1)], s.queues.crate + [Item(p, k)], s.queues.consumers))
  {
    var q := s.queues;
    var q1 := q.(producers := q.producers[1..]);
    var s1 := s.(queues := q1, procs := s.procs[p := PutItem(c, k)]);
    assert Next(s, p) == Moved(s1);
    var s2 := s1.(queues := q1.(crate := q1.crate + [Item(p, k)]), procs := s1.procs[p := PassToken(c, k + 1)]);
    assert Next(s1, p) == Moved(s2);
    t := s2.(queues := s2.queues.(producers := q1.producers + [Token(c, k + 1)]), procs := s.procs);
    assert s2.procs[p := AwaitToken] == s.procs;
    assert Next(s2, p) == Moved(t);
    ThreeSteps(s, s1, s2, t, p);
  }

  lemma OneTurn(m: nat, n: nat)
    requires n >= 1
    ensures (m + n) / n == m / n + 1
  {
    assert m == n * (m / n) + m % n;
    Times(n, m / n);
    RemainderOf(n, m / n + 1, m % n);
  }

  lemma ThreeSteps(s: State, s1: State, s2: State, s3: State, p: Pid)
    requires Next(s, p) == Moved(s1) && Next(s1, p) == Moved(s2) && Next(s2, p) == Moved(s3)
    ensures Run(s, [p, p, p]) == Moved(s3)
  {
    hide Next;
    assert [p, p, p][1..] == [p, p] && [p, p][1..] == [p] && [p][1..] == [];
    assert Run(s2, [p]) == Moved(s3);
    assert Run(s1, [p, p]) == Run(s2, [p]);
  }

  /** It never completes a batch before there is no room or no name left. */
  predicate TooMuch(c: nat, n: nat, bound: nat) {
    c == 0 || c > |ITEM_NAMES| || n * (c - 1) >= bound
  }

  /** After `m` items in turn no batch is complete. */
  predicate NoneComplete(c: nat, n: nat, m: nat) {
    c == 0 || c > |ITEM_NAMES| || m <= n * (c - 1)
  }

  lemma NotYetFull(c: nat, n: nat, m: nat)
    requires NoneComplete(c, n, m + 1) && n >= 1 && m < n * |ITEM_NAMES|
    ensures m / n < |ITEM_NAMES| && m / n + 1 != c
  {
    QuotientBelow(m, n, |ITEM_NAMES|);
    if 1 <= c <= |ITEM_NAMES| {
      QuotientBelow(m, n, c - 1);
    }
  }

  lemma QuotientBelow(m: nat, n: nat, k: nat)
    requires n >= 1 && m < n * k
    ensures m / n < k
  {
    assert m == n * (m / n) + m % n;
    if m / n >= k { ProductAtMost(n, m / n, k); }
  }

  lemma {:induction false} LoneFills(s: State, p: Pid, c: nat, n: nat, m: nat, pre: seq<Message>) returns (schedule: seq<Pid>)
    requires Lone(s, p, c, n, 0, pre) && NoneComplete(c, n, m) && |pre| + m <= s.bound && m <= n * |ITEM_NAMES|
    ensures Run(s, schedule).Moved? && Lone(Run(s, schedule).next, p, c, n, m, pre)
    ensures var t := Run(s, schedule).next; t.bound == s.bound && t.procs == s.procs && t.delivered == s.delivered
    decreases m
  {
    assert n >= 1;
    hide Lone, Next;
    if m == 0 {
      schedule := [];
    } else {
      var before := LoneFills(s, p, c, n, m - 1, pre);
      NotYetFull(c, n, m - 1);
      LoneItem(Run(s, before).next, p, c, n, m - 1, pre);
      RunConcat(s, before, [p, p, p]);
      schedule := before + [p, p, p];
    }
  }

  /** A process started with "init", before it has sent the initial message: it sends a
      token with index 0 and goes on to the top of its loop. */
  predicate Starter(c: nat, proc: Proc) { c >= 1 && (proc == PassToken(c, 0) || proc == ReturnToken(c)) }

  /** Nobody who gets a token can put its item, and nobody has another thing to do than
      to send a token for which there is no place. */
  ghost predicate Jammed(s: State, c: nat) {
    && s.queues.consumers == []
    && (forall i :: 0 <= i < |s.queues.producers| ==>
          s.queues.producers[i].Token? && NoPlace(s, s.queues.producers[i].index))
    && (forall q :: q in s.procs ==>
          || s.procs[q].Idle()
          || (s.procs[q].PutItem? && NoPlace(s, s.procs[q].index))
          || (Starter(c, s.procs[q]) && NoPlace(s, 0)))
  }

  predicate NoPlace(s: State, k: nat) { |s.queues.crate| >= s.bound || k >= |ITEM_NAMES| }

  function Unsent(c: nat, proc: Proc): nat { if Starter(c, proc) then 1 else 0 }

  function UnsentOf(c: nat): Proc -> nat { (proc: Proc) => Unsent(c, proc) }

  /** Every step takes a token out of the queue, or brings one that was not sent before. */
  ghost function JamLeft(s: State, c: nat): nat { |s.queues.producers| + 2 * Total(s.procs, UnsentOf(c)) }

  /** Of a jammed crew only a token can be taken, or sent for the first time. */
  lemma JamMove(s: State, c: nat, p: Pid)
    requires Jammed(s, c) && CanMove(s, p)
    ensures p in s.procs
    ensures var t, q := Next(s, p).next, s.queues.producers;
            && t.bound == s.bound && t.procs == s.procs[p := t.procs[p]]
            && if s.procs[p].Idle() then
                 && q != [] && t.queues == s.queues.(producers := q[1..])
                 && t.procs[p].PutItem? && t.procs[p].index == q[0].index
               else
                 && Starter(c, s.procs[p]) && NoPlace(s, 0) && t.procs[p].Idle()
                 && t.queues == s.queues.(producers := q + [Token(c, 0)])
  {
  }

  lemma JamStays(s: State, c: nat, p: Pid)
    requires Jammed(s, c) && CanMove(s, p)
    ensures Jammed(Next(s, p).next, c) && JamLeft(Next(s, p).next, c) < JamLeft(s, c)
  {
    JamMove(s, c, p);
    hide Next, Total;
    var t := Next(s, p).next;
    assert t.procs - {p} == s.procs - {p};
    TotalRemove(s.procs, UnsentOf(c), p);
    TotalRemove(t.procs, UnsentOf(c), p);
  }

  lemma {:induction false} JamSpreads(s: State, c: nat) returns (schedule: seq<Pid>)
    requires Jammed(s, c)
    ensures Run(s, schedule).Moved? && forall q :: !CanMove(Run(s, schedule).next, q)
    decreases JamLeft(s, c)
  {
    hide Jammed, Next, JamLeft;
    if p :| CanMove(s, p) {
      JamStays(s, c, p);
      var rest := JamSpreads(Next(s, p).next, c);
      assert ([p] + rest)[1..] == rest;
      schedule := [p] + rest;
    } else {
      schedule := [];
    }
  }

  /** All processes but one wait, or are about to send a token into a queue that is
      large enough for all tokens but theirs. */
  ghost predicate OthersWait(s: State, c: nat, n: nat) {
    || (forall q :: q in s.procs ==> s.procs[q].Idle())
    || (n == s.bound && forall q :: q in s.procs ==> s.procs[q].Idle() || Starter(c, s.procs[q]))
  }

  lemma LoneJams(s: State, p: Pid, c: nat, n: nat, m: nat)
    requires Lone(s, p, c, n, m, []) && (m == s.bound || (m == n * |ITEM_NAMES| && m < s.bound)) && OthersWait(s, c, n)
    ensures Jammed(s, c)
  {
    if m < s.bound {
      forall j | 0 <= j < n ensures s.queues.producers[j].index >= |ITEM_NAMES| {
        assert s.queues.producers[j] == Token(c, (m + j) / n);
        RemainderOf(n, |ITEM_NAMES|, j);
      }
    }
  }

  lemma Stops(s: State, p: Pid, c: nat, n: nat) returns (schedule: seq<Pid>)
    requires Lone(s, p, c, n, 0, []) && TooMuch(c, n, s.bound) && OthersWait(s, c, n)
    ensures Run(s, schedule).Moved? && forall q :: !CanMove(Run(s, schedule).next, q)
  {
    hide Lone, Next, Jammed, CanMove;
    var m := if s.bound <= n * |ITEM_NAMES| then s.bound else n * |ITEM_NAMES|;
    var fill := LoneFills(s, p, c, n, m, []);
    var t := Run(s, fill).next;
    LoneJams(t, p, c, n, m);
    var rest := JamSpreads(t, c);
    RunConcat(s, fill, rest);
    schedule := fill + rest;
  }

  /** All tokens in the queue have index 0. */
  lemma LoneStart(s: State, p: Pid, c: nat, n: nat, pre: seq<Message>)
    requires 1 <= n <= s.bound && p in s.procs && s.procs[p] == AwaitToken
    requires s.queues == Queues(seq(n, (_: nat) => Token(c, 0)), pre, [])
    ensures Lone(s, p, c, n, 0, pre)
  {
    forall j | 0 <= j < n ensures s.queues.producers[j] == Token(c, (0 + j) / n) {
      RemainderOf(n, 0, j);
    }
  }

  lemma NoTokenNoMove(s: State, c: nat)
    requires StartedWith(s, c, 0)
    ensures forall p :: !CanMove(s, p)
  {
  }

  /** With a producer and a consumer every schedule can go on for ever exactly when
      there is a token, a batch has at least one item and at most as many as there are
      names, and the crate queue has room for the unfinished batches of all tokens. */
  lemma RunsOnExactlyWhen(s: State, c: nat, n: nat, producer: Pid, consumer: Pid)
    requires StartedWith(s, c, n)
    requires producer in s.procs && s.procs[producer].IsProducer()
    requires consumer in s.procs && !s.procs[consumer].IsProducer()
    ensures RunsOn(s) <==> 1 <= n && 1 <= c <= |ITEM_NAMES| && n * (c - 1) < s.bound
  {
    assert s.procs[producer] == AwaitToken && OthersWait(s, c, n) && n <= s.bound;
    if n >= 1 { LoneStart(s, producer, c, n, []); }
    hide CanMove, Next, StartedWith, Inv, Lone, OthersWait;
    if n == 0 {
      NoTokenNoMove(s, c);
      assert Run(s, []) == Moved(s);
    } else if TooMuch(c, n, s.bound) {
      var schedule := Stops(s, producer, c, n);
      assert Run(s, schedule).Moved?;
    } else {
      InvInitial(s, c, n);
      forall schedule | Run(s, schedule).Moved? ensures exists p :: CanMove(Run(s, schedule).next, p) {
        InvRun(s, c, n, schedule);
        TokenPhases.RolesKept(s, schedule);
        BoundKept(s, schedule);
        SomeoneMoves(Run(s, schedule).next, c, n, producer, consumer);
      }
    }
  }

  lemma BoundKeptStep(s: State, p: Pid)
    requires Next(s, p).Moved?
    ensures Next(s, p).next.bound == s.bound
  {
  }

  lemma {:induction false} BoundKept(s: State, schedule: seq<Pid>)
    requires Run(s, schedule).Moved?
    ensures Run(s, schedule).next.bound == s.bound
    decreases |schedule|
  {
    hide Next;
    if schedule == [] {
    } else {
      BoundKeptStep(s, schedule[0]);
      BoundKept(Next(s, schedule[0]).next, schedule[1..]);
    }
  }

  // ---- starting up ----

  /** `n` processes were started with "init", and `sent` of them have sent their message. */
  ghost predicate Starting(s: State, c: nat, n: nat, sent: nat) {
    && c >= 1 && s.delivered == []
    && s.queues == Queues(seq(sent, (_: nat) => Token(c, 0)), [], [])
    && (forall p :: p in s.procs ==> s.procs[p].Idle() || Starter(c, s.procs[p]))
    && sent + Total(s.procs, Holding) == n
  }

  lemma StarterSends(s: State, c: nat, n: nat, sent: nat, p: Pid)
    requires Starting(s, c, n, sent) && p in s.procs && !s.procs[p].Idle()
    ensures sent < n && (Next(s, p).Moved? <==> sent < s.bound)
    ensures sent < s.bound ==>
              var t := Next(s, p).next;
              && Starting(t, c, n, sent + 1) && t.bound == s.bound
              && t.procs == s.procs[p := if s.procs[p].IsProducer() then AwaitToken else AwaitHandover]
  {
    TotalRemove(s.procs, Holding, p);
    if sent < s.bound {
      var q := seq(sent, (_: nat) => Token(c, 0));
      assert q + [Token(c, 0)] == seq(sent + 1, (_: nat) => Token(c, 0));
      var t := s.(queues := Queues(q + [Token(c, 0)], [], []), procs := s.procs[p := AfterSend(s.procs[p])]);
      assert Next(s, p) == Moved(t);
      assert t.procs - {p} == s.procs - {p};
      TotalRemove(t.procs, Holding, p);
    }
  }

  /** As many initial messages are sent as the producers' queue can take, that of `first`
      before the others. */
  lemma {:induction false} SomeSend(s: State, c: nat, n: nat, sent: nat, first: Pid) returns (schedule: seq<Pid>)
    requires Starting(s, c, n, sent) && sent <= n && sent <= s.bound && first in s.procs
    requires s.procs[first].Idle() || (sent < n && sent < s.bound)
    ensures Run(s, schedule).Moved?
    ensures var t := Run(s, schedule).next;
            && Starting(t, c, n, if n <= s.bound then n else s.bound) && t.bound == s.bound
            && first in t.procs && t.procs[first].Idle() && t.procs[first].IsProducer() == s.procs[first].IsProducer()
    decreases n - sent
  {
    hide Next;
    if sent < n && sent < s.bound {
      var p := Unsettled(s, c, n, sent, first);
      StarterSends(s, c, n, sent, p);
      var rest := SomeSend(Next(s, p).next, c, n, sent + 1, first);
      assert ([p] + rest)[1..] == rest;
      schedule := [p] + rest;
    } else {
      schedule := [];
    }
  }

  /** A process that is still to send, `first` if it is one. */
  lemma Unsettled(s: State, c: nat, n: nat, sent: nat, first: Pid) returns (p: Pid)
    requires Starting(s, c, n, sent) && sent < n && first in s.procs
    ensures p in s.procs && !s.procs[p].Idle() && (!s.procs[first].Idle() ==> p == first)
  {
    if s.procs[first].Idle() {
      if forall q :: q in s.procs ==> s.procs[q].Idle() {
        TotalZero(s.procs, Holding);
      }
      p :| p in s.procs && !s.procs[p].Idle();
    } else {
      p := first;
    }
  }

  lemma AllSent(s: State, c: nat, n: nat)
    requires Starting(s, c, n, n) && n <= s.bound
    ensures StartedWith(s, c, n)
  {
    forall p | p in s.procs ensures s.procs[p].Idle() {
      ZeroTotal(s.procs, Holding);
      assert Holding(s.procs[p]) == 0;
    }
  }

  lemma InvStarting(s: State, c: nat, n: nat)
    requires Starting(s, c, n, 0) && c <= |ITEM_NAMES|
    ensures Inv(s, c, n)
  {
    TotalZero(s.procs, CarryingOf(c));
    assert seq(0, (_: nat) => Token(c, 0)) == [];
  }

  /** With more initial messages than the producers' queue can take, and batches of more
      than one item, the crate fills up before anybody has a batch. */
  lemma TooManyStarters(s: State, c: nat, n: nat, producer: Pid) returns (schedule: seq<Pid>)
    requires Starting(s, c, n, 0) && 2 <= c <= |ITEM_NAMES| && n > s.bound
    requires producer in s.procs && s.procs[producer].IsProducer()
    ensures Run(s, schedule).Moved? && forall q :: !CanMove(Run(s, schedule).next, q)
  {
    if s.bound == 0 {
      schedule := [];
      forall q ensures !CanMove(s, q) { }
    } else {
      var start := SomeSend(s, c, n, 0, producer);
      var t := Run(s, start).next;
      hide Run;
      assert t.procs[producer] == AwaitToken && OthersWait(t, c, t.bound);
      LoneStart(t, producer, c, t.bound, []);
      ProductAtLeast(t.bound, c - 1);
      hide Starting, Lone, CanMove, OthersWait;
      var rest := Stops(t, producer, c, t.bound);
      RunConcat(s, start, rest);
      schedule := start + rest;
    }
  }

  /** The condition is the same when the initial messages are still to be sent, while
      the other processes may already be waiting; with batches of more than one item
      there may be more of them than the producers' queue can take. */
  lemma RunsOnFromStart(s: State, c: nat, n: nat, producer: Pid, consumer: Pid)
    requires Starting(s, c, n, 0) && c <= |ITEM_NAMES| && (n <= s.bound || c >= 2)
    requires producer in s.procs && s.procs[producer].IsProducer()
    requires consumer in s.procs && !s.procs[consumer].IsProducer()
    ensures RunsOn(s) <==> 1 <= n && n * (c - 1) < s.bound
  {
    StartingPositive(s, c, n);
    hide Starting, StartedWith, Inv, Next, CanMove;
    if n > s.bound {
      ProductAtLeast(n, c - 1);
      var schedule := TooManyStarters(s, c, n, producer);
      assert Run(s, schedule).Moved?;
    } else if 1 <= n && n * (c - 1) < s.bound {
      InvStarting(s, c, n);
      forall schedule | Run(s, schedule).Moved? ensures exists p :: CanMove(Run(s, schedule).next, p) {
        InvRun(s, c, n, schedule);
        TokenPhases.RolesKept(s, schedule);
        BoundKept(s, schedule);
        SomeoneMoves(Run(s, schedule).next, c, n, producer, consumer);
      }
    } else {
      var start := EverybodySends(s, c, n);
      var t := Run(s, start).next;
      TokenPhases.RolesKept(s, start);
      BoundKept(s, start);
      RunsOnExactlyWhen(t, c, n, producer, consumer);
      RunsOnAfter(s, start);
    }
  }

  lemma EverybodySends(s: State, c: nat, n: nat) returns (schedule: seq<Pid>)
    requires Starting(s, c, n, 0) && n <= s.bound
    ensures Run(s, schedule).Moved? && StartedWith(Run(s, schedule).next, c, n)
  {
    if n == 0 {
      AllSent(s, c, 0);
      schedule := [];
    } else {
      if forall q :: q in s.procs ==> s.procs[q].Idle() {
        TotalZero(s.procs, Holding);
      }
      var first :| first in s.procs && !s.procs[first].Idle();
      schedule := SomeSend(s, c, n, 0, first);
      AllSent(Run(s, schedule).next, c, n);
    }
  }

  /** When a batch fills the crate queue, as in the program, that means exactly one process
      started with "init", however many there are. */
  lemma ExactlyOneToken(s: State, c: nat, n: nat, producer: Pid, consumer: Pid)
    requires Starting(s, c, n, 0) && c == s.bound && 2 <= c <= |ITEM_NAMES|
    requires producer in s.procs && s.procs[producer].IsProducer()
    requires consumer in s.procs && !s.procs[consumer].IsProducer()
    ensures RunsOn(s) <==> n == 1
  {
    hide Starting, RunsOn;
    RunsOnFromStart(s, c, n, producer, consumer);
    if n >= 2 { Share(2, n - 2, c - 1); }
  }

  lemma StartingPositive(s: State, c: nat, n: nat)
    requires Starting(s, c, n, 0)
    ensures c >= 1
  {
  }

  /** What runs on for ever runs on after any beginning. */
  lemma RunsOnAfter(s: State, start: seq<Pid>)
    requires Run(s, start).Moved?
    ensures RunsOn(s) ==> RunsOn(Run(s, start).next)
  {
    hide Next, CanMove;
    if RunsOn(s) {
      var t := Run(s, start).next;
      forall schedule | Run(t, schedule).Moved? ensures exists p :: CanMove(Run(t, schedule).next, p) {
        RunConcat(s, start, schedule);
        assert Run(s, start + schedule).Moved?;
      }
    }
  }
}

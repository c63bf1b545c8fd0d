/** With how many tokens the deliveries still come in whole batches. */
module TokenBatches {
  import opened Processes
  import opened Modular
  import opened TokenProgram
  import opened TokenProtocol
  import opened TokenLimits
  import opened NarrowCrate
  import opened SlowBatches
  import opened Tally
  import TokenPhases

  /** Batches 0, 1, ..., c - 1, each read by one consumer. */
  ghost predicate WholeBatches(log: seq<Delivery>, c: nat)
    requires c >= 1
  {
    exists rounds, i, a :: TokenPhases.InBatches(log, c, rounds, i, a)
  }

  // ---- batches of one item ----

  /** Every item in the crate, and every item delivered, is the first of its batch. */
  ghost predicate OnlyFirsts(s: State) {
    && (forall j :: 0 <= j < |s.queues.crate| ==> s.queues.crate[j].Item? && s.queues.crate[j].index == 0)
    && (forall j :: 0 <= j < |s.delivered| ==> s.delivered[j].item.Item? && s.delivered[j].item.index == 0)
  }

  lemma FirstsStep(s: State, n: nat, p: Pid)
    requires Inv(s, 1, n) && OnlyFirsts(s) && Next(s, p).Moved?
    ensures OnlyFirsts(Next(s, p).next)
  {
    hide Indices;
  }

  lemma {:induction false} FirstsRun(s: State, n: nat, schedule: seq<Pid>)
    requires Inv(s, 1, n) && OnlyFirsts(s) && Run(s, schedule).Moved?
    ensures OnlyFirsts(Run(s, schedule).next)
    decreases |schedule|
  {
    hide Inv, OnlyFirsts, Next;
    if schedule == [] {
    } else {
      FirstsStep(s, n, schedule[0]);
      InvStep(s, schedule[0], 1, n);
      FirstsRun(Next(s, schedule[0]).next, n, schedule[1..]);
    }
  }

  lemma BatchesOfOne(log: seq<Delivery>)
    requires forall j :: 0 <= j < |log| ==> log[j].item.Item? && log[j].item.index == 0
    ensures WholeBatches(log, 1)
  {
    forall j ensures j % 1 == 0 && j / 1 == j {
    }
    assert TokenPhases.InBatches(log, 1, |log|, 0, 0);
  }

  // ---- several tokens and longer batches ----

  /** The first two items in the crate both begin a batch. */
  predicate TwoBegun(q: seq<Message>) {
    |q| >= 2 && q[0].Item? && q[0].index == 0 && q[1].Item? && q[1].index == 0
  }

  /** When `k` tokens are one item short of a batch, `p` completes one and hands it over,
      and `r` reads two items of it. */
  lemma TwoFirsts(s: State, p: Pid, r: Pid, c: nat, k: nat, pre: seq<Message>)
    requires 2 <= c <= |ITEM_NAMES| && Lone(s, p, c, k, k * (c - 1), pre) && |s.queues.crate| < s.bound
    requires TwoBegun(s.queues.crate)
    requires r in s.procs && s.procs[r] == AwaitHandover && s.delivered == []
    ensures Run(s, [p, p, p, r, r, r]).Moved? && !WholeBatches(Run(s, [p, p, p, r, r, r]).next.delivered, c)
  {
    hide Lone, Next, Run, WholeBatches;
    LoneFacts(s, p, c, k, pre);
    HandsOver(s, p, c);
    var t := Run(s, [p, p, p]).next;
    assert t.queues.crate[0] == s.queues.crate[0] && t.queues.crate[1] == s.queues.crate[1];
    ReadsTwo(t, r, c);
    RunConcat(s, [p, p, p], [r, r, r]);
    assert [p, p, p] + [r, r, r] == [p, p, p, r, r, r];
    TwoFirstsNotWhole(Run(s, [p, p, p, r, r, r]).next.delivered, c);
  }

  lemma LoneFacts(s: State, p: Pid, c: nat, k: nat, pre: seq<Message>)
    requires c >= 1 && Lone(s, p, c, k, k * (c - 1), pre)
    ensures s.queues.producers != [] && s.queues.producers[0] == Token(c, c - 1) && s.queues.consumers == []
    ensures p in s.procs && s.procs[p] == AwaitToken
  {
    RemainderOf(k, c - 1, 0);
    assert s.queues.producers[0] == Token(c, (k * (c - 1) + 0) / k);
  }

  /** What `p` has put is in the crate behind what was there. */
  lemma LoneBegins(s: State, p: Pid, c: nat, k: nat, m: nat, pre: seq<Message>)
    requires Lone(s, p, c, k, m, pre)
    requires (pre == [] && k >= 2 && m >= 2) || (|pre| == 1 && pre[0].Item? && pre[0].index == 0 && m >= 1)
    ensures TwoBegun(s.queues.crate)
  {
    RemainderOf(k, 0, 0);
    assert s.queues.crate[|pre| + 0] == Item(p, 0 / k);
    if pre == [] {
      RemainderOf(k, 0, 1);
      assert s.queues.crate[|pre| + 1] == Item(p, 1 / k);
    }
  }

  lemma TwoFirstsNotWhole(log: seq<Delivery>, c: nat)
    requires c >= 2 && |log| == 2 && log[1].item.Item? && log[1].item.index == 0
    ensures !WholeBatches(log, c)
  {
    assert 1 % c == 1;
    assert log[1].item.index != 1 % c;
  }

  lemma HandsOver(s: State, p: Pid, c: nat)
    requires p in s.procs && s.procs[p] == AwaitToken && s.queues.consumers == [] && |s.queues.crate| < s.bound
    requires 1 <= c <= |ITEM_NAMES| && s.queues.producers != [] && s.queues.producers[0] == Token(c, c - 1)
    ensures Run(s, [p, p, p]).Moved?
    ensures var t := Run(s, [p, p, p]).next;
            && t.queues.consumers == [Handover(c)] && t.queues.crate == s.queues.crate + [Item(p, c - 1)]
            && t.procs == s.procs && t.delivered == s.delivered && t.bound == s.bound
  {
    var q := s.queues;
    var s1 := s.(queues := q.(producers := q.producers[1..]), procs := s.procs[p := PutItem(c, c - 1)]);
    assert Next(s, p) == Moved(s1);
    var s2 := s1.(queues := s1.queues.(crate := q.crate + [Item(p, c - 1)]), procs := s.procs[p := PassToken(c, c)]);
    assert Next(s1, p) == Moved(s2);
    var s3 := s2.(queues := s2.queues.(consumers := [Handover(c)]), procs := s.procs);
    assert s2.procs[p := AwaitToken] == s.procs;
    assert Next(s2, p) == Moved(s3);
    ThreeSteps(s, s1, s2, s3, p);
  }

  lemma ReadsTwo(s: State, r: Pid, c: nat)
    requires r in s.procs && s.procs[r] == AwaitHandover && s.queues.consumers == [Handover(c)] && c >= 2
    requires |s.queues.crate| >= 2 && s.queues.crate[0].Item? && s.queues.crate[1].Item?
    ensures Run(s, [r, r, r]).Moved?
    ensures Run(s, [r, r, r]).next.delivered
            == s.delivered + [Delivery(r, s.queues.crate[0]), Delivery(r, s.queues.crate[1])]
  {
    var q := s.queues;
    var s1 := s.(queues := q.(consumers := []), procs := s.procs[r := TakeItem(c, 0)]);
    assert Next(s, r) == Moved(s1);
    var s2 := s1.(queues := s1.queues.(crate := q.crate[1..]), procs := s.procs[r := TakeItem(c, 1)],
                  delivered := s.delivered + [Delivery(r, q.crate[0])]);
    assert Next(s1, r) == Moved(s2);
    var s3 := s2.(queues := s2.queues.(crate := q.crate[2..]), procs := s.procs[r := Loop(c, 2)],
                  delivered := s2.delivered + [Delivery(r, q.crate[1])]);
    assert Next(s2, r) == Moved(s3);
    ThreeSteps(s, s1, s2, s3, r);
  }

  function Waiting(proc: Proc): nat { if proc.AwaitToken? then 1 else 0 }

  /** Other producers than `p` take tokens out of the queue until `t` are left. */
  lemma {:induction false} OthersTake(s: State, c: nat, j: nat, t: nat, p: Pid, r: Pid)
    returns (schedule: seq<Pid>, v: State)
    requires s.queues == Queues(seq(j, (_: nat) => Token(c, 0)), [], []) && t <= j && s.delivered == []
    requires p in s.procs && s.procs[p] == AwaitToken && r in s.procs && s.procs[r] == AwaitHandover
    requires j - t <= Total(s.procs - {p}, Waiting)
    ensures Run(s, schedule) == Moved(v) && v.bound == s.bound && v.delivered == []
    ensures v.queues == Queues(seq(t, (_: nat) => Token(c, 0)), [], [])
    ensures p in v.procs && v.procs[p] == AwaitToken && r in v.procs && v.procs[r] == AwaitHandover
    ensures forall q :: q in s.procs && s.procs[q].PutItem? ==> q in v.procs && v.procs[q] == s.procs[q]
    ensures j > t ==> exists q :: q in v.procs && v.procs[q] == PutItem(c, 0)
    decreases j - t
  {
    if j == t {
      schedule, v := [], s;
    } else {
      var q := SomeoneWaits(s.procs - {p});
      var u := OneTakes(s, c, j, q);
      assert u.procs - {p} == (s.procs - {p})[q := PutItem(c, 0)];
      TotalUpdate(s.procs - {p}, Waiting, q, PutItem(c, 0));
      hide Next;
      var rest;
      rest, v := OthersTake(u, c, j - 1, t, p, r);
      assert v.procs[q] == PutItem(c, 0);
      assert ([q] + rest)[1..] == rest;
      schedule := [q] + rest;
    }
  }

  lemma OneTakes(s: State, c: nat, j: nat, q: Pid) returns (u: State)
    requires s.queues == Queues(seq(j, (_: nat) => Token(c, 0)), [], []) && j >= 1
    requires q in s.procs && s.procs[q] == AwaitToken
    ensures Next(s, q) == Moved(u)
    ensures u == s.(queues := Queues(seq(j - 1, (_: nat) => Token(c, 0)), [], []), procs := s.procs[q := PutItem(c, 0)])
  {
    u := s.(queues := Queues(seq(j - 1, (_: nat) => Token(c, 0)), [], []), procs := s.procs[q := PutItem(c, 0)]);
    assert s.queues.producers[1..] == u.queues.producers && s.queues.producers[0] == Token(c, 0);
  }

  lemma SomeoneWaits(procs: map<Pid, Proc>) returns (q: Pid)
    requires Total(procs, Waiting) >= 1
    ensures q in procs && procs[q] == AwaitToken
  {
    if forall x :: x in procs ==> procs[x] != AwaitToken {
      TotalZero(procs, Waiting);
    }
    q :| q in procs && procs[q] == AwaitToken;
  }

  /** At the start all producers wait for a token. */
  lemma WaitingOthers(s: State, p: Pid)
    requires p in s.procs && s.procs[p] == AwaitToken && forall q :: q in s.procs ==> s.procs[q].Idle()
    ensures Total(s.procs - {p}, Waiting) + 1 == ProducerCount(s)
  {
    TotalRemove(s.procs, OneProducer, p);
    TotalSame(s.procs - {p}, Waiting, OneProducer);
  }

  /** The room that is needed, besides that for one batch, before items of two can mix:
      for one more item, or for all that the queue of tokens makes the producers add. */
  function Spare(c: nat, n: nat, producers: nat): nat
    requires c >= 1
  {
    if n <= producers then 1 else (n - producers) * (c - 1)
  }

  /** With more tokens than producers: the others hold one token each back, and `p` takes
      the rest in turn. */
  lemma MixesInTurn(s: State, c: nat, n: nat, p: Pid, r: Pid) returns (schedule: seq<Pid>)
    requires StartedWith(s, c, n) && 2 <= c <= |ITEM_NAMES| && n > ProducerCount(s) && c + Spare(c, n, ProducerCount(s)) <= s.bound
    requires p in s.procs && s.procs[p] == AwaitToken && r in s.procs && s.procs[r] == AwaitHandover
    ensures Run(s, schedule).Moved? && !WholeBatches(Run(s, schedule).next.delivered, c)
  {
    hide Lone, Next, Run, WholeBatches, ProducerCount;
    WaitingOthers(s, p);
    var k := n - ProducerCount(s) + 1;
    var take, u := OthersTake(s, c, n, k, p, r);
    LoneStart(u, p, c, k, []);
    InTurnSizes(c, n - ProducerCount(s));
    ProductAtMost(k, |ITEM_NAMES|, c - 1);
    var fill := LoneFills(u, p, c, k, k * (c - 1), []);
    var v := Run(u, fill).next;
    LoneSize(v, p, c, k, k * (c - 1), []);
    LoneBegins(v, p, c, k, k * (c - 1), []);
    TwoFirsts(v, p, r, c, k, []);
    RunConcat(s, take, fill);
    RunConcat(s, take + fill, [p, p, p, r, r, r]);
    schedule := take + fill + [p, p, p, r, r, r];
  }

  lemma InTurnSizes(c: nat, d: nat)
    requires c >= 2 && d >= 1
    ensures (d + 1) * (c - 1) == d * (c - 1) + c - 1 && (d + 1) * (c - 1) >= 2
  {
    ProductAtLeast(c - 1, d);
  }

  lemma LoneSize(s: State, p: Pid, c: nat, k: nat, m: nat, pre: seq<Message>)
    requires Lone(s, p, c, k, m, pre)
    ensures |s.queues.crate| == |pre| + m
  {
  }

  /** With no more tokens than producers: the others take all tokens but one, one of them
      puts an item, and `p` completes a batch behind it. */
  lemma MixesOne(s: State, c: nat, n: nat, p: Pid, r: Pid) returns (schedule: seq<Pid>)
    requires StartedWith(s, c, n) && 2 <= c <= |ITEM_NAMES| && 2 <= n <= ProducerCount(s) && c + 1 <= s.bound
    requires p in s.procs && s.procs[p] == AwaitToken && r in s.procs && s.procs[r] == AwaitHandover
    ensures Run(s, schedule).Moved? && !WholeBatches(Run(s, schedule).next.delivered, c)
  {
    hide Lone, Next, Run, WholeBatches, ProducerCount;
    WaitingOthers(s, p);
    var take, u := OthersTake(s, c, n, 1, p, r);
    var q :| q in u.procs && u.procs[q] == PutItem(c, 0);
    var w := OnePuts(u, c, q);
    var pre := [Item(q, 0)];
    LoneStart(w, p, c, 1, pre);
    var fill := LoneFills(w, p, c, 1, c - 1, pre);
    var v := Run(w, fill).next;
    LoneSize(v, p, c, 1, c - 1, pre);
    LoneBegins(v, p, c, 1, c - 1, pre);
    assert 1 * (c - 1) == c - 1;
    TwoFirsts(v, p, r, c, 1, pre);
    RunConcat(s, take, [q]);
    RunConcat(s, take + [q], fill);
    RunConcat(s, take + [q] + fill, [p, p, p, r, r, r]);
    schedule := take + [q] + fill + [p, p, p, r, r, r];
  }

  lemma OnePuts(s: State, c: nat, q: Pid) returns (w: State)
    requires q in s.procs && s.procs[q] == PutItem(c, 0) && s.queues.crate == [] && s.bound >= 1
    ensures Run(s, [q]) == Moved(w)
    ensures w == s.(queues := s.queues.(crate := [Item(q, 0)]), procs := s.procs[q := PassToken(c, 1)])
  {
    w := s.(queues := s.queues.(crate := [Item(q, 0)]), procs := s.procs[q := PassToken(c, 1)]);
    assert [] + [Item(q, 0)] == [Item(q, 0)];
    assert Next(s, q) == Moved(w);
    assert [q][1..] == [];
  }

  /** A consumer that reads items of two batches. */
  lemma Mixes(s: State, c: nat, n: nat, p: Pid, r: Pid) returns (schedule: seq<Pid>)
    requires StartedWith(s, c, n) && n >= 2 && 2 <= c <= |ITEM_NAMES| && c + Spare(c, n, ProducerCount(s)) <= s.bound
    requires p in s.procs && s.procs[p] == AwaitToken && r in s.procs && s.procs[r] == AwaitHandover
    ensures Run(s, schedule).Moved? && !WholeBatches(Run(s, schedule).next.delivered, c)
  {
    hide Run, WholeBatches, StartedWith, ProducerCount;
    if n <= ProducerCount(s) {
      schedule := MixesOne(s, c, n, p, r);
    } else {
      schedule := MixesInTurn(s, c, n, p, r);
    }
  }

  /** With a producer and a consumer the deliveries come in whole batches in every run
      exactly when there is at most one token, or a batch is a single item, or the crate
      queue is too small for two batches to mix. */
  lemma WholeExactlyWhen(s: State, c: nat, n: nat, producer: Pid, consumer: Pid)
    requires StartedWith(s, c, n) && 1 <= c <= |ITEM_NAMES|
    requires producer in s.procs && s.procs[producer].IsProducer()
    requires consumer in s.procs && !s.procs[consumer].IsProducer()
    ensures (forall schedule :: Run(s, schedule).Moved? ==> WholeBatches(Run(s, schedule).next.delivered, c))
            <==> n <= 1 || c == 1 || s.bound < c + Spare(c, n, ProducerCount(s))
  {
    assert s.procs[producer] == AwaitToken && s.procs[consumer] == AwaitHandover;
    hide Run, WholeBatches, StartedWith, ProducerCount;
    if n <= 1 || c == 1 || s.bound < c + Spare(c, n, ProducerCount(s)) {
      forall schedule | Run(s, schedule).Moved? ensures WholeBatches(Run(s, schedule).next.delivered, c) {
        StaysWhole(s, c, n, schedule);
      }
    } else {
      var schedule := Mixes(s, c, n, producer, consumer);
      assert Run(s, schedule).Moved?;
    }
  }

  lemma StaysWhole(s: State, c: nat, n: nat, schedule: seq<Pid>)
    requires StartedWith(s, c, n) && 1 <= c <= |ITEM_NAMES| && Run(s, schedule).Moved?
    requires n <= 1 || c == 1 || s.bound < c + Spare(c, n, ProducerCount(s))
    ensures WholeBatches(Run(s, schedule).next.delivered, c)
  {
    if s.bound <= c {
      hide Run, StartedWith, TokenPhases.InBatches;
      var rounds, i, a := WholeInNarrowCrate(s, c, n, schedule);
    } else if c == 1 {
      BatchesOfOneRun(s, n, schedule);
    } else if n == 0 {
      NoTokenNoRun(s, c, schedule);
      NothingIsWhole(c);
    } else if n == 1 {
      assert s.queues.producers == [Token(c, 0)];
      OneTokenRun(s, c, schedule);
    } else {
      assert (n - ProducerCount(s) + 1) * (c - 1) == (n - ProducerCount(s)) * (c - 1) + (c - 1);
      NothingDelivered(s, c, n, schedule);
      NothingIsWhole(c);
    }
  }

  lemma NoTokenNoRun(s: State, c: nat, schedule: seq<Pid>)
    requires StartedWith(s, c, 0) && Run(s, schedule).Moved?
    ensures Run(s, schedule).next.delivered == []
  {
    NoTokenNoMove(s, c);
    var p := if schedule == [] then 0 else schedule[0];
    assert !CanMove(s, p);
    hide Next;
  }

  lemma NothingIsWhole(c: nat)
    requires c >= 1
    ensures WholeBatches([], c)
  {
    assert TokenPhases.InBatches([], c, 0, 0, 0);
  }

  lemma BatchesOfOneRun(s: State, n: nat, schedule: seq<Pid>)
    requires StartedWith(s, 1, n) && Run(s, schedule).Moved?
    ensures WholeBatches(Run(s, schedule).next.delivered, 1)
  {
    InvInitial(s, 1, n);
    FirstsRun(s, n, schedule);
    BatchesOfOne(Run(s, schedule).next.delivered);
  }

  lemma OneTokenRun(s: State, c: nat, schedule: seq<Pid>)
    requires Initial(s, c) && Run(s, schedule).Moved?
    ensures c >= 1 && WholeBatches(Run(s, schedule).next.delivered, c)
  {
    hide TokenPhases.InBatches;
    var a := TokenPhases.StepsDecide(s, c, schedule);
  }
}

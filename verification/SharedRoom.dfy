/** The token protocol over three queues that share the room of one, as in the single
    typed queue: how many tokens it can run with. */
module SharedRoom {
  import opened Processes
  import opened Tally
  import opened Modular
  import opened TokenProgram
  import opened TokenProtocol
  import TokenPhases
  import L = TokenLimits

  function Size(q: Queues): nat { |q.producers| + |q.crate| + |q.consumers| }

  /** `p` wants to send and there is no room. */
  predicate Full(a: State, p: Pid) { p in a.procs && Wants(p, a.procs[p]).Send? && Size(a.queues) >= a.bound }

  function Step(a: State, p: Pid): Outcome { if Full(a, p) then Blocked else Next(a, p) }

  function Runs(a: State, schedule: seq<Pid>): Outcome
    decreases |schedule|
  {
    if schedule == [] then Moved(a)
    else match Step(a, schedule[0])
      case Moved(b) => Runs(b, schedule[1..])
      case Blocked => Blocked
      case Fault => Fault
  }

  predicate CanMove(a: State, p: Pid) { Step(a, p).Moved? }

  ghost predicate RunsOn(a: State) {
    forall schedule :: Runs(a, schedule).Moved? ==> exists p :: CanMove(Runs(a, schedule).next, p)
  }

  // ---- runs ----

  lemma {:induction false} RunsConcat(a: State, x: seq<Pid>, y: seq<Pid>)
    requires Runs(a, x).Moved?
    ensures Runs(a, x + y) == Runs(Runs(a, x).next, y)
    decreases |x|
  {
    hide Step;
    if x == [] {
      assert x + y == y;
    } else {
      assert (x + y)[1..] == x[1..] + y;
      RunsConcat(Step(a, x[0]).next, x[1..], y);
    }
  }

  lemma StepIsNext(a: State, p: Pid)
    requires Step(a, p).Moved?
    ensures Next(a, p) == Step(a, p)
  {
  }

  lemma ThreeSteps(a: State, b: State, c: State, d: State, p: Pid)
    requires Step(a, p) == Moved(b) && Step(b, p) == Moved(c) && Step(c, p) == Moved(d)
    ensures Runs(a, [p, p, p]) == Moved(d)
  {
    hide Step;
    assert [p, p, p][1..] == [p, p] && [p, p][1..] == [p] && [p][1..] == [];
    assert Runs(c, [p]) == Moved(d);
    assert Runs(b, [p, p]) == Runs(c, [p]);
  }

  lemma TwoSteps(a: State, b: State, c: State, p: Pid)
    requires Step(a, p) == Moved(b) && Step(b, p) == Moved(c)
    ensures Runs(a, [p, p]) == Moved(c)
  {
    hide Step;
    assert [p, p][1..] == [p] && [p][1..] == [];
    assert Runs(b, [p]) == Moved(c);
  }

  lemma {:induction false} RunKeeps(a: State, c: nat, n: nat, schedule: seq<Pid>)
    requires L.Inv(a, c, n) && Runs(a, schedule).Moved?
    ensures L.Inv(Runs(a, schedule).next, c, n)
    decreases |schedule|
  {
    hide L.Inv, Step, Next;
    if schedule == [] {
    } else {
      StepIsNext(a, schedule[0]);
      L.InvStep(a, schedule[0], c, n);
      RunKeeps(Step(a, schedule[0]).next, c, n, schedule[1..]);
    }
  }

  /** Roles and room stay as they are. */
  lemma {:induction false} RolesStay(a: State, schedule: seq<Pid>)
    requires Runs(a, schedule).Moved?
    ensures var b := Runs(a, schedule).next;
            && b.bound == a.bound && b.procs.Keys == a.procs.Keys
            && forall q :: q in a.procs ==> b.procs[q].IsProducer() == a.procs[q].IsProducer()
    decreases |schedule|
  {
    hide Step, Next;
    if schedule == [] {
    } else {
      StepIsNext(a, schedule[0]);
      TokenPhases.RoleKept(a, schedule[0]);
      L.BoundKeptStep(a, schedule[0]);
      RolesStay(Step(a, schedule[0]).next, schedule[1..]);
    }
  }

  // ---- enough room ----

  function OneConsumer(proc: Proc): nat { if proc.IsProducer() then 0 else 1 }

  ghost function Consumers(a: State): nat { Total(a.procs, OneConsumer) }

  /** The number of messages is below what may pile up: `c` for every token, or one more
      for every token but those that the consumers, all waiting to return one, hold. */
  predicate Roomy(c: nat, n: nat, consumers: nat, room: nat) {
    n * c < room && (consumers < n ==> (n - consumers) * (c + 1) < room)
  }

  lemma Halted(a: State, c: nat, n: nat, p: Pid)
    requires L.Inv(a, c, n) && p in a.procs && !CanMove(a, p)
    ensures a.procs[p] == AwaitToken ==> a.queues.producers == []
    ensures a.procs[p] == AwaitHandover ==> a.queues.consumers == []
    ensures !a.procs[p].Idle() ==> !a.procs[p].TakeItem? && Size(a.queues) >= a.bound
  {
    TotalRemove(a.procs, L.CarryingOf(c), p);
    hide L.Indices;
  }

  lemma {:induction false} CarryAtMost(procs: map<Pid, Proc>, c: nat)
    requires forall p :: p in procs ==> L.Proper(c, procs[p]) && !procs[p].TakeItem?
    ensures Total(procs, L.CarryingOf(c)) <= Total(procs, L.Holding) * c
    decreases |procs|
  {
    if procs == map[] {
    } else {
      var p := Pick(procs);
      CarryAtMost(procs - {p}, c);
      TotalRemove(procs, L.CarryingOf(c), p);
      TotalRemove(procs, L.Holding, p);
      L.Share(L.Holding(procs[p]), Total(procs - {p}, L.Holding), c);
    }
  }

  /** Consumers that wait to return a token carry nothing. */
  lemma {:induction false} CarryBesides(procs: map<Pid, Proc>, c: nat)
    requires forall p :: p in procs ==> L.Proper(c, procs[p]) && (procs[p].IsProducer() || procs[p].ReturnToken?)
    ensures Total(procs, OneConsumer) <= Total(procs, L.Holding)
    ensures Total(procs, L.CarryingOf(c)) <= (Total(procs, L.Holding) - Total(procs, OneConsumer)) * c
    decreases |procs|
  {
    if procs == map[] {
    } else {
      var p := Pick(procs);
      CarryBesides(procs - {p}, c);
      TotalRemove(procs, L.CarryingOf(c), p);
      TotalRemove(procs, L.Holding, p);
      TotalRemove(procs, OneConsumer, p);
      var x, y := L.Holding(procs[p]) - OneConsumer(procs[p]), Total(procs - {p}, L.Holding) - Total(procs - {p}, OneConsumer);
      assert Total(procs, L.Holding) - Total(procs, OneConsumer) == x + y;
      L.Share(x, y, c);
    }
  }

  /** `tokens` wait, `batches` are handed over, `hands` are held; all together make `n`. */
  lemma SizeWithoutHandover(c: nat, n: nat, tokens: nat, indices: nat, hands: nat, carry: nat)
    requires c >= 1 && n == tokens + hands && indices <= tokens * (c - 1) && carry <= hands * c
    ensures tokens + indices + carry <= n * c
  {
    L.Share(tokens, hands, c);
    assert tokens * c == tokens * (c - 1) + tokens;
  }

  lemma SizeWithHandover(c: nat, n: nat, tokens: nat, batches: nat, indices: nat, hands: nat, held: nat, carry: nat)
    requires c >= 1 && n == tokens + batches + hands && held <= hands
    requires indices <= tokens * (c - 1) && carry <= (hands - held) * c
    ensures held <= n && tokens + (indices + c * batches + carry) + batches <= (n - held) * (c + 1)
  {
    var others := hands - held;
    assert tokens * c == tokens * (c - 1) + tokens;
    assert batches * (c + 1) == c * batches + batches;
    assert others * (c + 1) == others * c + others;
    assert tokens * (c + 1) == tokens * c + tokens;
    L.Share(tokens, batches, c + 1);
    L.Share(tokens + batches, others, c + 1);
    assert n - held == tokens + batches + others;
  }

  lemma SomeoneMoves(a: State, c: nat, n: nat, producer: Pid, consumer: Pid)
    requires L.Inv(a, c, n) && 1 <= n && Roomy(c, n, Consumers(a), a.bound)
    requires producer in a.procs && a.procs[producer].IsProducer()
    requires consumer in a.procs && !a.procs[consumer].IsProducer()
    ensures exists p :: CanMove(a, p)
  {
    hide CanMove;
    if !exists p :: CanMove(a, p) {
      forall p | p in a.procs ensures !a.procs[p].TakeItem? && L.Proper(c, a.procs[p]) {
        Halted(a, c, n, p);
      }
      L.IndicesBound(a.queues.producers, c - 1);
      HolderThere(a, c, n, producer, consumer);
      if a.queues.consumers == [] {
        CarryAtMost(a.procs, c);
        SizeWithoutHandover(c, n, |a.queues.producers|, L.Indices(a.queues.producers),
                            Total(a.procs, L.Holding), Total(a.procs, L.CarryingOf(c)));
      } else {
        forall p | p in a.procs ensures a.procs[p].IsProducer() || a.procs[p].ReturnToken? {
          Halted(a, c, n, p);
        }
        CarryBesides(a.procs, c);
        SizeWithHandover(c, n, |a.queues.producers|, |a.queues.consumers|, L.Indices(a.queues.producers),
                         Total(a.procs, L.Holding), Consumers(a), Total(a.procs, L.CarryingOf(c)));
      }
    }
  }

  /** If nobody moves, a token is in somebody's hands, so there is no room. */
  lemma HolderThere(a: State, c: nat, n: nat, producer: Pid, consumer: Pid)
    requires L.Inv(a, c, n) && 1 <= n && (forall p :: !CanMove(a, p))
    requires producer in a.procs && a.procs[producer].IsProducer()
    requires consumer in a.procs && !a.procs[consumer].IsProducer()
    ensures Size(a.queues) >= a.bound
  {
    hide CanMove, Size;
    if p :| p in a.procs && !a.procs[p].Idle() {
      Halted(a, c, n, p);
    } else {
      TotalZero(a.procs, L.Holding);
      Halted(a, c, n, producer);
      Halted(a, c, n, consumer);
    }
  }

  // ---- a full queue ----

  /** No room is left, nobody waits for a batch that is there, and every token can be taken. */
  ghost predicate Jam(a: State) {
    && Size(a.queues) == a.bound
    && (a.queues.consumers == [] || forall q :: q in a.procs ==> a.procs[q] != AwaitHandover)
    && (forall q :: q in a.procs ==> a.procs[q].Idle() || a.procs[q].PassToken? || a.procs[q].ReturnToken?)
    && (forall i :: 0 <= i < |a.queues.producers| ==> a.queues.producers[i].Token? && a.queues.producers[i].index < |ITEM_NAMES|)
  }

  /** A producer takes a token and puts its item into the room the token leaves. */
  lemma JamTakes(a: State, p: Pid) returns (b: State)
    requires Jam(a) && p in a.procs && a.procs[p] == AwaitToken && a.queues.producers != []
    ensures Runs(a, [p, p]) == Moved(b) && Jam(b) && |b.queues.producers| < |a.queues.producers|
  {
    var q, t := a.queues, a.queues.producers[0];
    var a1 := a.(queues := q.(producers := q.producers[1..]), procs := a.procs[p := PutItem(t.capacity, t.index)]);
    assert Step(a, p) == Moved(a1);
    b := a1.(queues := a1.queues.(crate := q.crate + [Item(p, t.index)]),
             procs := a.procs[p := PassToken(t.capacity, t.index + 1)]);
    assert a1.procs[p := PassToken(t.capacity, t.index + 1)] == b.procs;
    assert Step(a1, p) == Moved(b);
    TwoSteps(a, a1, b, p);
  }

  lemma JamStands(a: State)
    requires Jam(a)
    requires a.queues.producers == [] || forall p :: p in a.procs ==> a.procs[p] != AwaitToken
    ensures forall p :: !CanMove(a, p)
  {
  }

  lemma {:induction false} JamSpreads(a: State) returns (schedule: seq<Pid>)
    requires Jam(a)
    ensures Runs(a, schedule).Moved? && forall q :: !CanMove(Runs(a, schedule).next, q)
    decreases |a.queues.producers|
  {
    hide Jam, Step, CanMove;
    if p :| p in a.procs && a.procs[p] == AwaitToken && a.queues.producers != [] {
      var b := JamTakes(a, p);
      var rest := JamSpreads(b);
      RunsConcat(a, [p, p], rest);
      schedule := [p, p] + rest;
    } else {
      JamStands(a);
      schedule := [];
    }
  }

  // ---- a producer on its own ----

  lemma LoneItem(a: State, p: Pid, c: nat, n: nat, m: nat)
    requires L.Lone(a, p, c, n, m, []) && n + m < a.bound && m / n < |ITEM_NAMES| && m / n + 1 != c
    ensures Runs(a, [p, p, p]).Moved? && L.Lone(Runs(a, [p, p, p]).next, p, c, n, m + 1, [])
    ensures var b := Runs(a, [p, p, p]).next; b.bound == a.bound && b.procs == a.procs
  {
    L.LoneItem(a, p, c, n, m, []);
    var k, q := m / n, a.queues;
    assert q.producers[0] == Token(c, (m + 0) / n);
    assert Size(q) == n + m;
    hide L.Lone;
    var a1 := a.(queues := q.(producers := q.producers[1..]), procs := a.procs[p := PutItem(c, k)]);
    assert Next(a, p) == Moved(a1) && Step(a, p) == Moved(a1);
    var a2 := a1.(queues := a1.queues.(crate := q.crate + [Item(p, k)]), procs := a1.procs[p := PassToken(c, k + 1)]);
    assert Next(a1, p) == Moved(a2) && Step(a1, p) == Moved(a2);
    var a3 := a2.(queues := a2.queues.(producers := q.producers[1..] + [Token(c, k + 1)]), procs := a2.procs[p := AwaitToken]);
    assert Next(a2, p) == Moved(a3) && Step(a2, p) == Moved(a3);
    ThreeSteps(a, a1, a2, a3, p);
    L.ThreeSteps(a, a1, a2, a3, p);
  }

  lemma {:induction false} LoneFills(a: State, p: Pid, c: nat, n: nat, m: nat) returns (schedule: seq<Pid>)
    requires L.Lone(a, p, c, n, 0, []) && L.NoneComplete(c, n, m) && n + m <= a.bound && m <= n * |ITEM_NAMES|
    ensures Runs(a, schedule).Moved? && L.Lone(Runs(a, schedule).next, p, c, n, m, [])
    ensures var b := Runs(a, schedule).next; b.bound == a.bound && b.procs == a.procs
    decreases m
  {
    assert n >= 1;
    hide L.Lone, Step;
    if m == 0 {
      schedule := [];
    } else {
      var before := LoneFills(a, p, c, n, m - 1);
      L.NotYetFull(c, n, m - 1);
      LoneItem(Runs(a, before).next, p, c, n, m - 1);
      RunsConcat(a, before, [p, p, p]);
      schedule := before + [p, p, p];
    }
  }

  /** With room for fewer than `c` messages for each token, they pile up before a batch is complete. */
  lemma PilesUp(a: State, p: Pid, c: nat, n: nat) returns (schedule: seq<Pid>)
    requires L.StartedWith(a, c, n) && n >= 1 && 1 <= c <= |ITEM_NAMES| && n * c >= a.bound
    requires p in a.procs && a.procs[p] == AwaitToken
    ensures Runs(a, schedule).Moved? && forall q :: !CanMove(Runs(a, schedule).next, q)
  {
    L.LoneStart(a, p, c, n, []);
    hide L.Lone, Step, CanMove, Jam;
    var m := a.bound - n;
    assert n * c == n * (c - 1) + n;
    ProductAtMost(n, |ITEM_NAMES|, c - 1);
    var fill := LoneFills(a, p, c, n, m);
    var b := Runs(a, fill).next;
    LoneJam(b, p, c, n, m);
    var rest := JamSpreads(b);
    RunsConcat(a, fill, rest);
    schedule := fill + rest;
  }

  lemma LoneJam(a: State, p: Pid, c: nat, n: nat, m: nat)
    requires L.Lone(a, p, c, n, m, []) && (forall q :: q in a.procs ==> a.procs[q].Idle())
    requires 1 <= c <= |ITEM_NAMES| && n + m == a.bound && m <= n * (c - 1)
    ensures Jam(a)
  {
    hide L.Lone;
    LoneSizes(a, p, c, n, m);
    forall i | 0 <= i < n ensures a.queues.producers[i].Token? && a.queues.producers[i].index < |ITEM_NAMES| {
      LoneIndex(a, p, c, n, m, i);
    }
  }

  lemma LoneSizes(a: State, p: Pid, c: nat, n: nat, m: nat)
    requires L.Lone(a, p, c, n, m, [])
    ensures |a.queues.producers| == n && |a.queues.crate| == m && a.queues.consumers == []
  {
  }

  lemma LoneIndex(a: State, p: Pid, c: nat, n: nat, m: nat, i: nat)
    requires L.Lone(a, p, c, n, m, []) && i < n && c >= 1 && m <= n * (c - 1)
    ensures i < |a.queues.producers| && a.queues.producers[i].Token? && a.queues.producers[i].index < c
  {
    assert a.queues.producers[i] == Token(c, (m + i) / n);
    LevelBelow(m, i, n, c);
  }

  lemma LevelBelow(m: nat, j: nat, n: nat, c: nat)
    requires c >= 1 && j < n && m <= n * (c - 1)
    ensures (m + j) / n < c
  {
    assert n * c == n * (c - 1) + n;
    L.QuotientBelow(m + j, n, c);
  }

  // ---- consumers that all wait to return a token ----

  /** `k` tokens are one item short of a batch, `h` batches are handed over. */
  ghost predicate Stage(a: State, p: Pid, c: nat, k: nat, h: nat)
    requires c >= 1
  {
    && p in a.procs && a.procs[p] == AwaitToken
    && (forall q :: q in a.procs ==> a.procs[q].Idle() || a.procs[q] == ReturnToken(c))
    && a.queues.producers == seq(k, (_: nat) => Token(c, c - 1))
    && a.queues.consumers == seq(h, (_: nat) => Handover(c))
    && |a.queues.crate| == k * (c - 1) + h * c
    && (forall i :: 0 <= i < |a.queues.crate| ==> a.queues.crate[i].Item?)
  }

  lemma StageSize(a: State, p: Pid, c: nat, k: nat, h: nat)
    requires c >= 1 && Stage(a, p, c, k, h)
    ensures Size(a.queues) == k * c + h * (c + 1)
  {
    assert k * c == k * (c - 1) + k && h * (c + 1) == h * c + h;
  }

  /** `p` completes one more batch. */
  lemma Completes(a: State, p: Pid, c: nat, k: nat, h: nat)
    requires 1 <= c <= |ITEM_NAMES| && Stage(a, p, c, k, h) && k >= 1 && Size(a.queues) < a.bound
    ensures Runs(a, [p, p, p]).Moved?
    ensures var b := Runs(a, [p, p, p]).next; Stage(b, p, c, k - 1, h + 1) && b.procs == a.procs && b.bound == a.bound
  {
    var b := CompletesRun(a, p, c, k, h);
    hide Step, Runs, Stage;
    NextStage(a, b, p, c, k, h);
  }

  /** The three steps, on the queues alone. */
  lemma CompletesRun(a: State, p: Pid, c: nat, k: nat, h: nat) returns (b: State)
    requires 1 <= c <= |ITEM_NAMES| && Stage(a, p, c, k, h) && k >= 1 && Size(a.queues) < a.bound
    ensures Runs(a, [p, p, p]) == Moved(b) && b.procs == a.procs && b.bound == a.bound
    ensures b.queues == Queues(a.queues.producers[1..], a.queues.crate + [Item(p, c - 1)], a.queues.consumers + [Handover(c)])
  {
    var q := a.queues;
    assert q.producers[0] == Token(c, c - 1);
    hide Stage;
    var a1 := a.(queues := q.(producers := q.producers[1..]), procs := a.procs[p := PutItem(c, c - 1)]);
    assert Step(a, p) == Moved(a1);
    var a2 := a1.(queues := a1.queues.(crate := q.crate + [Item(p, c - 1)]), procs := a.procs[p := PassToken(c, c)]);
    assert a1.procs[p := PassToken(c, c)] == a2.procs;
    assert Step(a1, p) == Moved(a2);
    b := a2.(queues := a2.queues.(consumers := q.consumers + [Handover(c)]), procs := a.procs);
    assert a2.procs[p := AwaitToken] == a.procs;
    assert Step(a2, p) == Moved(b);
    ThreeSteps(a, a1, a2, b, p);
  }

  lemma NextStage(a: State, b: State, p: Pid, c: nat, k: nat, h: nat)
    requires c >= 1 && Stage(a, p, c, k, h) && k >= 1 && b.procs == a.procs
    requires b.queues == Queues(a.queues.producers[1..], a.queues.crate + [Item(p, c - 1)], a.queues.consumers + [Handover(c)])
    ensures Stage(b, p, c, k - 1, h + 1)
  {
    assert a.queues.producers[1..] == seq(k - 1, (_: nat) => Token(c, c - 1));
    assert a.queues.consumers + [Handover(c)] == seq(h + 1, (_: nat) => Handover(c));
    assert k * (c - 1) == (k - 1) * (c - 1) + (c - 1) && (h + 1) * c == h * c + c;
  }

  /** A consumer takes over the only batch. */
  lemma TakesOver(a: State, p: Pid, r: Pid, c: nat, k: nat) returns (b: State)
    requires c >= 1 && Stage(a, p, c, k, 1) && r in a.procs && a.procs[r] == AwaitHandover
    ensures Step(a, r) == Moved(b) && b.bound == a.bound && b.procs == a.procs[r := TakeItem(c, 0)]
    ensures b.queues == a.queues.(consumers := [])
  {
    assert a.queues.consumers[0] == Handover(c) && a.queues.consumers[1..] == [];
    b := a.(queues := a.queues.(consumers := []), procs := a.procs[r := TakeItem(c, 0)]);
  }

  /** And reads all its items. */
  lemma {:induction false} ReadsAll(a: State, r: Pid, c: nat, i: nat, left: nat) returns (schedule: seq<Pid>, b: State)
    requires r in a.procs && a.procs[r] == Loop(c, i) && i <= c && |a.queues.crate| == left + (c - i)
    requires forall j :: 0 <= j < |a.queues.crate| ==> a.queues.crate[j].Item?
    ensures Runs(a, schedule) == Moved(b) && b.procs == a.procs[r := ReturnToken(c)] && b.bound == a.bound
    ensures |b.queues.crate| == left && (forall j :: 0 <= j < left ==> b.queues.crate[j].Item?)
    ensures b.queues.producers == a.queues.producers && b.queues.consumers == a.queues.consumers
    decreases c - i
  {
    if i == c {
      schedule, b := [], a;
      assert a.procs == a.procs[r := ReturnToken(c)];
    } else {
      var d := a.(queues := a.queues.(crate := a.queues.crate[1..]), procs := a.procs[r := Loop(c, i + 1)],
                  delivered := a.delivered + [Delivery(r, a.queues.crate[0])]);
      assert Step(a, r) == Moved(d);
      hide Step;
      var rest;
      rest, b := ReadsAll(d, r, c, i + 1, left);
      assert ([r] + rest)[1..] == rest;
      schedule := [r] + rest;
      assert d.procs[r := ReturnToken(c)] == a.procs[r := ReturnToken(c)];
    }
  }

  lemma Drains(a: State, p: Pid, r: Pid, c: nat, k: nat) returns (schedule: seq<Pid>, b: State)
    requires c >= 1 && Stage(a, p, c, k, 1) && r in a.procs && a.procs[r] == AwaitHandover
    ensures Runs(a, schedule) == Moved(b) && Stage(b, p, c, k, 0)
    ensures b.procs == a.procs[r := ReturnToken(c)] && b.bound == a.bound
  {
    hide Step;
    var d := TakesOver(a, p, r, c, k);
    assert k * (c - 1) + 1 * c == k * (c - 1) + c;
    var rest;
    rest, b := ReadsAll(d, r, c, 0, k * (c - 1));
    assert ([r] + rest)[1..] == rest;
    schedule := [r] + rest;
    assert d.procs[r := ReturnToken(c)] == a.procs[r := ReturnToken(c)];
    assert seq(0, (_: nat) => Handover(c)) == [];
  }

  function Waiting(proc: Proc): nat { if proc.AwaitHandover? then 1 else 0 }

  /** One after the other the consumers read a batch and are left with its token. */
  lemma {:induction false} AllReturn(a: State, p: Pid, c: nat, k: nat) returns (schedule: seq<Pid>, b: State)
    requires 1 <= c <= |ITEM_NAMES| && Stage(a, p, c, k, 0)
    requires Total(a.procs, Waiting) <= k && k * c < a.bound
    ensures Runs(a, schedule) == Moved(b) && b.bound == a.bound
    ensures Stage(b, p, c, k - Total(a.procs, Waiting), 0)
    ensures forall q :: q in b.procs ==> b.procs[q] != AwaitHandover
    decreases Total(a.procs, Waiting)
  {
    hide Step, Stage;
    if r :| r in a.procs && a.procs[r] == AwaitHandover {
      TotalRemove(a.procs, Waiting, r);
      StageSize(a, p, c, k, 0);
      Completes(a, p, c, k, 0);
      var d := Runs(a, [p, p, p]).next;
      var drain, e := Drains(d, p, r, c, k - 1);
      assert e.procs - {r} == a.procs - {r};
      TotalRemove(e.procs, Waiting, r);
      assert k * c == (k - 1) * c + c;
      var rest;
      rest, b := AllReturn(e, p, c, k - 1);
      RunsConcat(a, [p, p, p], drain);
      RunsConcat(a, [p, p, p] + drain, rest);
      schedule := [p, p, p] + drain + rest;
    } else {
      TotalZero(a.procs, Waiting);
      schedule, b := [], a;
    }
  }

  /** Nobody takes the batches that are now completed, until there is no room. */
  lemma {:induction false} FillsUp(a: State, p: Pid, c: nat, k: nat, h: nat) returns (schedule: seq<Pid>, b: State, k': nat, h': nat)
    requires 1 <= c <= |ITEM_NAMES| && Stage(a, p, c, k, h)
    requires Size(a.queues) <= a.bound <= (k + h) * (c + 1)
    ensures Runs(a, schedule) == Moved(b) && b.procs == a.procs && b.bound == a.bound
    ensures Stage(b, p, c, k', h') && Size(b.queues) == b.bound
    decreases k
  {
    hide Step, Stage;
    StageSize(a, p, c, k, h);
    if Size(a.queues) == a.bound {
      schedule, b, k', h' := [], a, k, h;
    } else {
      Completes(a, p, c, k, h);
      var d := Runs(a, [p, p, p]).next;
      StageSize(d, p, c, k - 1, h + 1);
      assert k * c == (k - 1) * c + c && (h + 1) * (c + 1) == h * (c + 1) + (c + 1);
      var rest;
      rest, b, k', h' := FillsUp(d, p, c, k - 1, h + 1);
      RunsConcat(a, [p, p, p], rest);
      schedule := [p, p, p] + rest;
    }
  }

  lemma StageJam(a: State, p: Pid, c: nat, k: nat, h: nat)
    requires 1 <= c <= |ITEM_NAMES| && Stage(a, p, c, k, h) && Size(a.queues) == a.bound
    requires forall q :: q in a.procs ==> a.procs[q] != AwaitHandover
    ensures Jam(a)
  {
  }

  lemma LoneStage(a: State, p: Pid, c: nat, n: nat)
    requires c >= 1 && n >= 1 && L.Lone(a, p, c, n, n * (c - 1), [])
    requires forall q :: q in a.procs ==> a.procs[q].Idle()
    ensures Stage(a, p, c, n, 0)
  {
    forall j | 0 <= j < n ensures a.queues.producers[j] == Token(c, c - 1) {
      assert a.queues.producers[j] == Token(c, (n * (c - 1) + j) / n);
      RemainderOf(n, c - 1, j);
    }
    assert a.queues.producers == seq(n, (_: nat) => Token(c, c - 1));
    assert seq(0, (_: nat) => Handover(c)) == [];
    forall j | 0 <= j < |a.queues.crate| ensures a.queues.crate[j].Item? {
      assert a.queues.crate[0 + j] == Item(p, j / n);
    }
  }

  /** All tokens are brought to one item short of a batch. */
  lemma ReachesStage(a: State, p: Pid, c: nat, n: nat) returns (schedule: seq<Pid>, b: State)
    requires L.StartedWith(a, c, n) && n >= 1 && 1 <= c <= |ITEM_NAMES| && n * c <= a.bound
    requires p in a.procs && a.procs[p] == AwaitToken
    ensures Runs(a, schedule) == Moved(b) && Stage(b, p, c, n, 0) && b.bound == a.bound && b.procs == a.procs
  {
    L.LoneStart(a, p, c, n, []);
    hide L.Lone, Step, Stage;
    assert n * c == n * (c - 1) + n;
    ProductAtMost(n, |ITEM_NAMES|, c - 1);
    schedule := LoneFills(a, p, c, n, n * (c - 1));
    b := Runs(a, schedule).next;
    LoneStage(b, p, c, n);
  }

  /** From there the consumers get all tokens they can, and then the queue fills up. */
  lemma StageJams(a: State, p: Pid, c: nat, n: nat) returns (schedule: seq<Pid>)
    requires 1 <= c <= |ITEM_NAMES| && Stage(a, p, c, n, 0) && n * c < a.bound
    requires Total(a.procs, Waiting) <= n && (n - Total(a.procs, Waiting)) * (c + 1) >= a.bound
    ensures Runs(a, schedule).Moved? && forall q :: !CanMove(Runs(a, schedule).next, q)
  {
    hide Step, CanMove, Jam, Stage, Runs;
    var x := Total(a.procs, Waiting);
    var k := n - x;
    var drain, d := AllReturn(a, p, c, n);
    StageSize(d, p, c, k, 0);
    L.Share(k, x, c);
    var more, e, k', h' := FillsUp(d, p, c, k, 0);
    StageJam(e, p, c, k', h');
    var rest := JamSpreads(e);
    RunsConcat(a, drain, more);
    RunsConcat(a, drain + more, rest);
    schedule := drain + more + rest;
  }

  /** With more tokens than consumers, and room for no more than `c + 1` messages for each of
      the others, the consumers are left with tokens that they cannot return. */
  lemma PilesUpBehindConsumers(a: State, p: Pid, c: nat, n: nat) returns (schedule: seq<Pid>)
    requires L.StartedWith(a, c, n) && n >= 1 && 1 <= c <= |ITEM_NAMES|
    requires p in a.procs && a.procs[p] == AwaitToken
    requires n * c < a.bound && Consumers(a) < n && (n - Consumers(a)) * (c + 1) >= a.bound
    ensures Runs(a, schedule).Moved? && forall q :: !CanMove(Runs(a, schedule).next, q)
  {
    WaitingConsumers(a);
    hide Step, CanMove, Stage, Consumers, L.StartedWith, Runs;
    var before, b := ReachesStage(a, p, c, n);
    var rest := StageJams(b, p, c, n);
    RunsConcat(a, before, rest);
    schedule := before + rest;
  }

  lemma WaitingConsumers(a: State)
    requires forall q :: q in a.procs ==> a.procs[q].Idle()
    ensures Total(a.procs, Waiting) == Consumers(a)
  {
    TotalSame(a.procs, Waiting, OneConsumer);
  }

  // ---- batches that are never complete ----

  /** No batch is ever handed over, and the table of names is not exceeded. */
  ghost predicate Endless(a: State, c: nat, n: nat) {
    && (c == 0 || c > |ITEM_NAMES|) && a.queues.consumers == [] && TokensOf(a, c)
    && (forall q :: q in a.procs ==> a.procs[q].Idle() || Working(c, a.procs[q]))
    && n == |a.queues.producers| + Total(a.procs, L.Holding)
  }

  predicate Working(c: nat, proc: Proc) {
    || (proc.PutItem? && proc.capacity == c && proc.index <= |ITEM_NAMES|)
    || (proc.PassToken? && proc.capacity == c && 1 <= proc.index <= |ITEM_NAMES|)
  }

  /** The steps that a token has been through. */
  function Effort(proc: Proc): nat {
    match proc
    case PutItem(_, k) => 3 * k + 1
    case PassToken(_, k) => if k == 0 then 0 else 3 * k - 1
    case _ => 0
  }

  ghost function Work(a: State): nat { 3 * L.Indices(a.queues.producers) + Total(a.procs, Effort) }

  lemma WorkStep(a: State, c: nat, n: nat, p: Pid)
    requires Endless(a, c, n) && CanMove(a, p)
    ensures Endless(Step(a, p).next, c, n) && Work(Step(a, p).next) == Work(a) + 1
  {
    var b := Step(a, p).next;
    WorkOfOne(a, c, n, p);
    hide Step, Endless, L.Indices, Effort, CanMove;
    assert b.procs - {p} == a.procs - {p};
    TotalRemove(a.procs, L.Holding, p);
    TotalRemove(b.procs, L.Holding, p);
    TotalRemove(a.procs, Effort, p);
    TotalRemove(b.procs, Effort, p);
    StillEndless(a, b, c, n, p);
  }

  /** What the step of `p` does to its own effort, its token and the queues. */
  lemma WorkOfOne(a: State, c: nat, n: nat, p: Pid)
    requires Endless(a, c, n) && CanMove(a, p)
    ensures p in a.procs
    ensures var b := Step(a, p).next;
            && p in b.procs && b.procs == a.procs[p := b.procs[p]] && b.queues.consumers == []
            && (b.procs[p].Idle() || Working(c, b.procs[p])) && TokensOf(b, c)
            && |b.queues.producers| + L.Holding(b.procs[p]) == |a.queues.producers| + L.Holding(a.procs[p])
            && 3 * L.Indices(b.queues.producers) + Effort(b.procs[p])
               == 3 * L.Indices(a.queues.producers) + Effort(a.procs[p]) + 1
  {
    if p in a.procs && a.procs[p].PassToken? {
      L.IndicesAppend(a.queues.producers, Token(c, a.procs[p].index));
      hide L.Indices;
    }
  }

  ghost predicate TokensOf(a: State, c: nat) {
    forall i :: 0 <= i < |a.queues.producers| ==>
      var m := a.queues.producers[i]; m.Token? && m.capacity == c && m.index <= |ITEM_NAMES|
  }

  lemma StillEndless(a: State, b: State, c: nat, n: nat, p: Pid)
    requires Endless(a, c, n) && p in a.procs && p in b.procs && b.procs == a.procs[p := b.procs[p]]
    requires b.queues.consumers == [] && TokensOf(b, c) && (b.procs[p].Idle() || Working(c, b.procs[p]))
    requires |b.queues.producers| + Total(b.procs, L.Holding) == |a.queues.producers| + Total(a.procs, L.Holding)
    ensures Endless(b, c, n)
  {
  }

  lemma {:induction false} EffortBound(procs: map<Pid, Proc>, c: nat)
    requires forall q :: q in procs ==> procs[q].Idle() || Working(c, procs[q])
    ensures Total(procs, Effort) <= 25 * Total(procs, L.Holding)
    decreases |procs|
  {
    if procs == map[] {
    } else {
      var p := Pick(procs);
      EffortBound(procs - {p}, c);
      TotalRemove(procs, Effort, p);
      TotalRemove(procs, L.Holding, p);
    }
  }

  lemma WorkBound(a: State, c: nat, n: nat)
    requires Endless(a, c, n)
    ensures Work(a) <= 25 * n
  {
    EffortBound(a.procs, c);
    L.IndicesBound(a.queues.producers, |ITEM_NAMES|);
  }

  lemma {:induction false} RunsOut(a: State, c: nat, n: nat) returns (schedule: seq<Pid>)
    requires Endless(a, c, n)
    ensures Runs(a, schedule).Moved? && forall q :: !CanMove(Runs(a, schedule).next, q)
    decreases 25 * n - Work(a)
  {
    hide Endless, Step, Work;
    if p :| CanMove(a, p) {
      WorkStep(a, c, n, p);
      WorkBound(Step(a, p).next, c, n);
      var rest := RunsOut(Step(a, p).next, c, n);
      assert ([p] + rest)[1..] == rest;
      schedule := [p] + rest;
    } else {
      schedule := [];
    }
  }

  lemma EndlessStart(a: State, c: nat, n: nat)
    requires L.StartedWith(a, c, n) && (c == 0 || c > |ITEM_NAMES|)
    ensures Endless(a, c, n)
  {
    TotalZero(a.procs, L.Holding);
  }

  // ---- exactly when ----

  /** With a producer and a consumer every schedule can go on for ever exactly when there
      is a token, a batch has at least one item and at most as many as there are names,
      and there is room for the messages that may pile up. */
  lemma RunsOnExactlyWhen(a: State, c: nat, n: nat, producer: Pid, consumer: Pid)
    requires L.StartedWith(a, c, n)
    requires producer in a.procs && a.procs[producer].IsProducer()
    requires consumer in a.procs && !a.procs[consumer].IsProducer()
    ensures RunsOn(a) <==> 1 <= n && 1 <= c <= |ITEM_NAMES| && Roomy(c, n, Consumers(a), a.bound)
  {
    assert a.procs[producer] == AwaitToken;
    hide CanMove, Step, L.StartedWith, L.Inv, L.Lone;
    if n == 0 {
      NothingToTake(a, c);
      assert Runs(a, []) == Moved(a);
    } else if c == 0 || c > |ITEM_NAMES| {
      EndlessStart(a, c, n);
      var schedule := RunsOut(a, c, n);
      assert Runs(a, schedule).Moved?;
    } else if !Roomy(c, n, Consumers(a), a.bound) {
      var schedule;
      if n * c >= a.bound {
        schedule := PilesUp(a, producer, c, n);
      } else {
        schedule := PilesUpBehindConsumers(a, producer, c, n);
      }
      assert Runs(a, schedule).Moved?;
    } else {
      L.InvInitial(a, c, n);
      forall schedule | Runs(a, schedule).Moved? ensures exists p :: CanMove(Runs(a, schedule).next, p) {
        RunKeeps(a, c, n, schedule);
        RolesStay(a, schedule);
        SameConsumers(a, Runs(a, schedule).next);
        SomeoneMoves(Runs(a, schedule).next, c, n, producer, consumer);
      }
    }
  }

  lemma NothingToTake(a: State, c: nat)
    requires L.StartedWith(a, c, 0)
    ensures forall p :: !CanMove(a, p)
  {
  }

  lemma {:induction false} SameConsumers(a: State, b: State)
    requires b.procs.Keys == a.procs.Keys
    requires forall q :: q in a.procs ==> b.procs[q].IsProducer() == a.procs[q].IsProducer()
    ensures Consumers(b) == Consumers(a)
  {
    CountByRole(a.procs, b.procs);
  }

  lemma {:induction false} CountByRole(a: map<Pid, Proc>, b: map<Pid, Proc>)
    requires b.Keys == a.Keys && forall q :: q in a ==> b[q].IsProducer() == a[q].IsProducer()
    ensures Total(b, OneConsumer) == Total(a, OneConsumer)
    decreases |a|
  {
    if a == map[] {
      assert b == map[];
    } else {
      var p := Pick(a);
      assert b != map[] && p in b;
      TotalRemove(a, OneConsumer, p);
      TotalRemove(b, OneConsumer, p);
      CountByRole(a - {p}, b - {p});
    }
  }
}

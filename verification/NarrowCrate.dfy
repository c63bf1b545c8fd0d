/** The token protocol with a crate queue that has room for no more than one batch: with
    any number of tokens at most one batch is complete or being read at a time, and it
    comes out whole. */
module NarrowCrate {
  import opened Processes
  import opened Tally
  import opened TokenProgram
  import opened TokenProtocol
  import L = TokenLimits
  import opened TokenPhases

  // ---- tokens whose batches are not complete ----

  /** The items of the unfinished batch of the token in a process's hands. */
  function Level(c: nat, proc: Proc): nat {
    match proc
    case PutItem(_, k) => k
    case PassToken(_, k) => if k < c then k else 0
    case _ => 0
  }

  function Opened(c: nat, proc: Proc): nat { if Level(c, proc) > 0 then 1 else 0 }

  /** A complete batch that is not handed over yet, and one that is being read. */
  function Complete(c: nat, proc: Proc): nat { if proc.PassToken? && proc.index >= c then 1 else 0 }

  function Reading(proc: Proc): nat { if proc.TakeItem? then 1 else 0 }

  function LevelOf(c: nat): Proc -> nat { (proc: Proc) => Level(c, proc) }

  function OpenedOf(c: nat): Proc -> nat { (proc: Proc) => Opened(c, proc) }

  function CompleteOf(c: nat): Proc -> nat { (proc: Proc) => Complete(c, proc) }

  /** The tokens in the queue with a batch that has been begun. */
  function QueueOpened(q: seq<Message>): nat {
    if q == [] then 0 else (if L.Index(q[0]) > 0 then 1 else 0) + QueueOpened(q[1..])
  }

  lemma {:induction false} QueueOpenedAppend(q: seq<Message>, m: Message)
    ensures QueueOpened(q + [m]) == QueueOpened(q) + if L.Index(m) > 0 then 1 else 0
    decreases |q|
  {
    if q == [] {
      assert q + [m] == [m];
    } else {
      assert (q + [m])[1..] == q[1..] + [m];
      QueueOpenedAppend(q[1..], m);
    }
  }

  lemma {:induction false} NoneOpened(q: seq<Message>)
    ensures QueueOpened(q) == 0 <==> L.Indices(q) == 0
    decreases |q|
  {
    if q == [] {
    } else {
      NoneOpened(q[1..]);
    }
  }

  lemma NoneOpenedInHand(procs: map<Pid, Proc>, c: nat)
    ensures Total(procs, OpenedOf(c)) == 0 <==> Total(procs, LevelOf(c)) == 0
  {
    if Total(procs, OpenedOf(c)) == 0 {
      ZeroTotal(procs, OpenedOf(c));
      forall p | p in procs ensures LevelOf(c)(procs[p]) == 0 {
        assert OpenedOf(c)(procs[p]) == 0;
      }
      TotalZero(procs, LevelOf(c));
    } else if Total(procs, LevelOf(c)) == 0 {
      ZeroTotal(procs, LevelOf(c));
      forall p | p in procs ensures OpenedOf(c)(procs[p]) == 0 {
        assert LevelOf(c)(procs[p]) == 0;
      }
      TotalZero(procs, OpenedOf(c));
    }
  }

  /** Items of unfinished batches, and the number of batches that have been begun. */
  ghost function Levels(s: State, c: nat): nat { L.Indices(s.queues.producers) + Total(s.procs, LevelOf(c)) }

  ghost function Count(s: State, c: nat): nat { QueueOpened(s.queues.producers) + Total(s.procs, OpenedOf(c)) }

  /** If `p` is the only one that has begun a batch, its items are all there are; if the
      others have no items, they have not begun any. */
  lemma OnlyOneOpened(s: State, c: nat, p: Pid)
    requires p in s.procs
    ensures Count(s, c) == 0 ==> Levels(s, c) == 0
    ensures Count(s, c) == 1 && Opened(c, s.procs[p]) == 1 ==> Levels(s, c) == Level(c, s.procs[p])
    ensures Levels(s, c) == Level(c, s.procs[p]) ==> Count(s, c) <= 1
  {
    TotalRemove(s.procs, LevelOf(c), p);
    TotalRemove(s.procs, OpenedOf(c), p);
    NoneOpenedInHand(s.procs - {p}, c);
    NoneOpenedInHand(s.procs, c);
    NoneOpened(s.queues.producers);
  }

  // ---- where the protocol is ----

  datatype Phase = Filling | Ready | Draining(i: nat, a: Pid)

  /** The items behind the batch that is being read are those of unfinished batches; if
      there is only one such batch, they are its items in order. */
  ghost predicate Tidy(s: State, c: nat, tail: seq<Message>) {
    && |tail| == Levels(s, c)
    && (forall j :: 0 <= j < |tail| ==> tail[j].Item?)
    && (Count(s, c) <= 1 ==> forall j :: 0 <= j < |tail| ==> tail[j].index == j)
  }

  ghost predicate From(q: seq<Message>, first: nat, n: nat) {
    |q| >= n && forall j :: 0 <= j < n ==> q[j].Item? && q[j].index == first + j
  }

  ghost predicate Frame(s: State, c: nat) {
    && 1 <= c <= |ITEM_NAMES| && |s.queues.crate| <= s.bound <= c
    && L.ProperQueues(s.queues, c) && forall p :: p in s.procs ==> L.Proper(c, s.procs[p])
  }

  ghost predicate AtPhase(s: State, c: nat, ph: Phase, rounds: nat)
    requires c >= 1
  {
    && Total(s.procs, Reading) == (if ph.Draining? then 1 else 0)
    && |s.queues.consumers| + Total(s.procs, CompleteOf(c)) == (if ph.Ready? then 1 else 0)
    && match ph
       case Filling => Tidy(s, c, s.queues.crate) && InBatches(s.delivered, c, rounds, 0, 0)
       case Ready =>
         && |s.queues.crate| == c && From(s.queues.crate, 0, c) && Tidy(s, c, [])
         && InBatches(s.delivered, c, rounds, 0, 0)
       case Draining(i, a) =>
         && a in s.procs && s.procs[a] == TakeItem(c, i) && i < c
         && From(s.queues.crate, i, c - i) && Tidy(s, c, s.queues.crate[c - i..])
         && InBatches(s.delivered, c, rounds, i, a)
  }

  ghost predicate Narrow(s: State, c: nat, ph: Phase, rounds: nat) { Frame(s, c) && AtPhase(s, c, ph, rounds) }

  // ---- one step ----

  /** How the step of `p` changes the sums. */
  lemma SumsMove(s: State, t: State, c: nat, p: Pid)
    requires p in s.procs && p in t.procs && t.procs == s.procs[p := t.procs[p]]
    ensures Total(t.procs, LevelOf(c)) + Level(c, s.procs[p]) == Total(s.procs, LevelOf(c)) + Level(c, t.procs[p])
    ensures Total(t.procs, OpenedOf(c)) + Opened(c, s.procs[p]) == Total(s.procs, OpenedOf(c)) + Opened(c, t.procs[p])
    ensures Total(t.procs, CompleteOf(c)) + Complete(c, s.procs[p]) == Total(s.procs, CompleteOf(c)) + Complete(c, t.procs[p])
    ensures Total(t.procs, Reading) + Reading(s.procs[p]) == Total(s.procs, Reading) + Reading(t.procs[p])
  {
    TotalUpdate(s.procs, LevelOf(c), p, t.procs[p]);
    TotalUpdate(s.procs, OpenedOf(c), p, t.procs[p]);
    TotalUpdate(s.procs, CompleteOf(c), p, t.procs[p]);
    TotalUpdate(s.procs, Reading, p, t.procs[p]);
  }

  lemma FrameStep(s: State, c: nat, p: Pid)
    requires Frame(s, c) && Next(s, p).Moved?
    ensures Frame(Next(s, p).next, c) && p in s.procs && p in Next(s, p).next.procs
    ensures Next(s, p).next.procs == s.procs[p := Next(s, p).next.procs[p]]
  {
    L.InHand(s, p);
    L.StepConserves(s, p, c);
    CrateRoom(s, p);
    hide Next, L.Proper, L.ProperQueues;
  }

  lemma CrateRoom(s: State, p: Pid)
    requires Next(s, p).Moved? && |s.queues.crate| <= s.bound
    ensures |Next(s, p).next.queues.crate| <= s.bound
  {
  }

  /** A step that leaves the crate, the log and the batches as they are. */
  ghost predicate Calm(s: State, t: State, c: nat, p: Pid) {
    && p in s.procs && p in t.procs && t.procs == s.procs[p := t.procs[p]]
    && t.queues.crate == s.queues.crate && t.delivered == s.delivered
    && Levels(t, c) == Levels(s, c) && Count(t, c) == Count(s, c)
    && Total(t.procs, Reading) == Total(s.procs, Reading)
    && |t.queues.consumers| + Total(t.procs, CompleteOf(c)) == |s.queues.consumers| + Total(s.procs, CompleteOf(c))
    && !s.procs[p].TakeItem?
  }

  lemma CalmKeeps(s: State, t: State, c: nat, ph: Phase, rounds: nat, p: Pid)
    requires c >= 1 && AtPhase(s, c, ph, rounds) && Calm(s, t, c, p)
    ensures AtPhase(t, c, ph, rounds)
  {
    hide InBatches, Levels, Count;
  }

  lemma AwaitIsCalm(s: State, c: nat, p: Pid)
    requires Frame(s, c) && p in s.procs && s.procs[p] == AwaitToken && Next(s, p).Moved?
    ensures Calm(s, Next(s, p).next, c, p)
  {
    FrameStep(s, c, p);
    SumsMove(s, Next(s, p).next, c, p);
    hide Total;
  }

  lemma ControlIsCalm(s: State, c: nat, p: Pid)
    requires Frame(s, c) && p in s.procs && (s.procs[p].PassToken? || s.procs[p].ReturnToken?) && Next(s, p).Moved?
    ensures Calm(s, Next(s, p).next, c, p)
  {
    FrameStep(s, c, p);
    var t, proc, q := Next(s, p).next, s.procs[p], s.queues.producers;
    SumsMove(s, t, c, p);
    ControlShape(s, c, p);
    var k := if proc.PassToken? then proc.index else 0;
    L.IndicesAppend(q, Token(c, k));
    QueueOpenedAppend(q, Token(c, k));
    hide Next, L.Indices, QueueOpened, Total, L.ProperQueues;
  }

  /** A token goes back to the queue, or a batch is handed over. */
  lemma ControlShape(s: State, c: nat, p: Pid)
    requires Frame(s, c) && p in s.procs && (s.procs[p].PassToken? || s.procs[p].ReturnToken?) && Next(s, p).Moved?
    ensures var t, proc := Next(s, p).next, s.procs[p];
            var k := if proc.PassToken? then proc.index else 0;
            && k <= c && t.delivered == s.delivered && t.procs[p].Idle()
            && t.queues == if proc.PassToken? && k == c then s.queues.(consumers := s.queues.consumers + [Handover(c)])
                           else s.queues.(producers := s.queues.producers + [Token(c, k)])
  {
  }

  /** Putting an item that does not complete the batch. */
  lemma TailGrows(s: State, t: State, c: nat, p: Pid, k: nat, tail: seq<Message>)
    requires Tidy(s, c, tail) && p in s.procs && s.procs[p] == PutItem(c, k) && k + 1 < c
    requires t.queues.producers == s.queues.producers && t.procs == s.procs[p := PassToken(c, k + 1)]
    ensures Tidy(t, c, tail + [Item(p, k)])
  {
    SumsMove(s, t, c, p);
    OnlyOneOpened(s, c, p);
    TotalRemove(s.procs, OpenedOf(c), p);
    hide L.Indices, QueueOpened, Total;
    assert Levels(t, c) == Levels(s, c) + 1 && Count(t, c) == Count(s, c) + if k == 0 then 1 else 0;
    assert Count(t, c) <= 1 ==> |tail| == k;
  }

  lemma PutShape(s: State, c: nat, p: Pid, k: nat)
    requires p in s.procs && s.procs[p] == PutItem(c, k) && Next(s, p).Moved?
    ensures var t := Next(s, p).next;
            && |s.queues.crate| < s.bound && t.procs == s.procs[p := PassToken(c, k + 1)] && t.bound == s.bound
            && t.queues == s.queues.(crate := s.queues.crate + [Item(p, k)]) && t.delivered == s.delivered
  {
  }

  /** The sums after an item is put, and the items of the batch so far. */
  lemma PutSums(s: State, t: State, c: nat, p: Pid, k: nat)
    requires p in s.procs && s.procs[p] == PutItem(c, k) && t.procs == s.procs[p := PassToken(c, k + 1)] && k < c
    requires t.queues == s.queues.(crate := s.queues.crate + [Item(p, k)])
    ensures Total(t.procs, Reading) == Total(s.procs, Reading)
    ensures Total(t.procs, CompleteOf(c)) == Total(s.procs, CompleteOf(c)) + if k + 1 < c then 0 else 1
    ensures Levels(t, c) + k == Levels(s, c) + if k + 1 < c then k + 1 else 0
    ensures Levels(s, c) >= k && (Levels(s, c) == k ==> Count(s, c) <= 1)
  {
    SumsMove(s, t, c, p);
    OnlyOneOpened(s, c, p);
    TotalRemove(s.procs, LevelOf(c), p);
    hide L.Indices, QueueOpened, Total;
  }

  lemma PutKeeps(s: State, c: nat, ph: Phase, rounds: nat, p: Pid, k: nat)
    requires Narrow(s, c, ph, rounds) && p in s.procs && s.procs[p] == PutItem(c, k) && k + 1 < c && Next(s, p).Moved?
    ensures AtPhase(Next(s, p).next, c, ph, rounds)
  {
    PutShape(s, c, p, k);
    var t := Next(s, p).next;
    PutSums(s, t, c, p, k);
    hide Next, InBatches, Tidy, Levels, Count, Total;
    match ph
    case Filling => TailGrows(s, t, c, p, k, s.queues.crate);
    case Ready =>
    case Draining(i, a) =>
      TailGrows(s, t, c, p, k, s.queues.crate[c - i..]);
      FromGrows(s.queues.crate, Item(p, k), i, c - i);
  }

  lemma FromGrows(q: seq<Message>, m: Message, first: nat, n: nat)
    requires From(q, first, n)
    ensures From(q + [m], first, n) && (q + [m])[n..] == q[n..] + [m]
  {
  }

  /** A batch can only be completed while no other one is in the crate. */
  lemma NoOtherBatch(s: State, c: nat, ph: Phase, rounds: nat, p: Pid)
    requires Narrow(s, c, ph, rounds) && p in s.procs && s.procs[p] == PutItem(c, c - 1) && |s.queues.crate| < s.bound
    ensures ph == Filling && |s.queues.crate| == Levels(s, c) == c - 1 && Count(s, c) <= 1
  {
    TotalRemove(s.procs, LevelOf(c), p);
    OnlyOneOpened(s, c, p);
    hide InBatches, L.Indices, QueueOpened, Count, L.ProperQueues, L.Proper;
  }

  /** The item that completes a batch finds only the others of its batch in the crate. */
  lemma CompletingPut(s: State, c: nat, ph: Phase, rounds: nat, p: Pid)
    requires Narrow(s, c, ph, rounds) && p in s.procs && s.procs[p] == PutItem(c, c - 1) && Next(s, p).Moved?
    ensures AtPhase(Next(s, p).next, c, Ready, rounds)
  {
    PutShape(s, c, p, c - 1);
    var t := Next(s, p).next;
    NoOtherBatch(s, c, ph, rounds, p);
    PutSums(s, t, c, p, c - 1);
    hide Next, InBatches, Levels, Count, Total, L.ProperQueues, L.Proper;
    assert From(t.queues.crate, 0, c);
  }

  lemma HandoverShape(s: State, c: nat, p: Pid)
    requires Frame(s, c) && p in s.procs && s.procs[p] == AwaitHandover && Next(s, p).Moved?
    ensures |s.queues.consumers| >= 1
    ensures var t := Next(s, p).next;
            && t.procs == s.procs[p := TakeItem(c, 0)] && t.delivered == s.delivered
            && t.queues == s.queues.(consumers := s.queues.consumers[1..])
  {
    assert s.queues.consumers != [] ==> s.queues.consumers[0] == Handover(c);
  }

  lemma HandoverStep(s: State, c: nat, ph: Phase, rounds: nat, p: Pid)
    requires Narrow(s, c, ph, rounds) && p in s.procs && s.procs[p] == AwaitHandover && Next(s, p).Moved?
    ensures AtPhase(Next(s, p).next, c, Phase.Draining(0, p), rounds)
  {
    HandoverShape(s, c, p);
    var t := Next(s, p).next;
    SumsMove(s, t, c, p);
    OpenBatch(s.delivered, c, rounds, 0, p);
    hide Next, InBatches, L.Indices, QueueOpened, Total, L.ProperQueues, L.Proper;
    assert s.queues.crate[c..] == [];
  }

  lemma OnlyReader(s: State, c: nat, ph: Phase, rounds: nat, p: Pid, i: nat)
    requires c >= 1 && AtPhase(s, c, ph, rounds) && p in s.procs && s.procs[p] == TakeItem(c, i)
    ensures ph == Phase.Draining(i, p)
  {
    TotalRemove(s.procs, Reading, p);
    if ph.Draining? && ph.a != p {
      TotalRemove(s.procs - {p}, Reading, ph.a);
    }
    hide InBatches, Tidy, From;
  }

  lemma TakeShape(s: State, c: nat, p: Pid, i: nat)
    requires p in s.procs && s.procs[p] == TakeItem(c, i) && Next(s, p).Moved?
    ensures var t := Next(s, p).next;
            && s.queues.crate != [] && t.procs == s.procs[p := Loop(c, i + 1)]
            && t.queues == s.queues.(crate := s.queues.crate[1..])
            && t.delivered == s.delivered + [Delivery(p, s.queues.crate[0])]
  {
  }

  lemma ItemStep(s: State, c: nat, ph: Phase, rounds: nat, p: Pid, i: nat) returns (ph': Phase, rounds': nat)
    requires Narrow(s, c, ph, rounds) && p in s.procs && s.procs[p] == TakeItem(c, i) && Next(s, p).Moved?
    ensures AtPhase(Next(s, p).next, c, ph', rounds')
  {
    OnlyReader(s, c, ph, rounds, p, i);
    TakeShape(s, c, p, i);
    var t, q := Next(s, p).next, s.queues.crate;
    SumsMove(s, t, c, p);
    FromNext(q, i, c - i);
    DeliverOne(s.delivered, c, rounds, i, p, Delivery(p, q[0]));
    hide Next, InBatches, L.Indices, QueueOpened, Total, L.ProperQueues, L.Proper;
    assert Levels(t, c) == Levels(s, c) && Count(t, c) == Count(s, c);
    if i + 1 < c {
      ph', rounds' := Phase.Draining(i + 1, p), rounds;
    } else {
      CloseBatch(t.delivered, c, rounds, p, 0);
      ph', rounds' := Filling, rounds + 1;
    }
  }

  lemma FromNext(q: seq<Message>, first: nat, n: nat)
    requires n >= 1 && From(q, first, n)
    ensures q[0].Item? && q[0].index == first
    ensures From(q[1..], first + 1, n - 1) && q[1..][n - 1..] == q[n..]
    ensures n == 1 ==> q[1..] == q[n..]
  {
  }

  lemma NarrowStep(s: State, c: nat, ph: Phase, rounds: nat, p: Pid) returns (ph': Phase, rounds': nat)
    requires Narrow(s, c, ph, rounds) && Next(s, p).Moved?
    ensures Narrow(Next(s, p).next, c, ph', rounds')
  {
    FrameStep(s, c, p);
    ph', rounds' := ph, rounds;
    match s.procs[p] {
      case AwaitToken =>
        AwaitIsCalm(s, c, p);
        CalmKeeps(s, Next(s, p).next, c, ph, rounds, p);
      case PutItem(d, k) =>
        assert d == c && k < c;
        if k + 1 < c {
          PutKeeps(s, c, ph, rounds, p, k);
        } else {
          CompletingPut(s, c, ph, rounds, p);
          ph' := Ready;
        }
      case PassToken(_, _) =>
        ControlIsCalm(s, c, p);
        CalmKeeps(s, Next(s, p).next, c, ph, rounds, p);
      case AwaitHandover =>
        HandoverStep(s, c, ph, rounds, p);
        ph' := Phase.Draining(0, p);
      case TakeItem(_, i) =>
        ph', rounds' := ItemStep(s, c, ph, rounds, p, i);
      case ReturnToken(_) =>
        ControlIsCalm(s, c, p);
        CalmKeeps(s, Next(s, p).next, c, ph, rounds, p);
    }
    hide Next, AtPhase, L.ProperQueues;
  }

  // ---- runs ----

  lemma {:induction false} NarrowRun(s: State, c: nat, ph: Phase, rounds: nat, schedule: seq<Pid>)
    returns (ph': Phase, rounds': nat)
    requires Narrow(s, c, ph, rounds) && Run(s, schedule).Moved?
    ensures Narrow(Run(s, schedule).next, c, ph', rounds')
    decreases |schedule|
  {
    hide Narrow, Next;
    if schedule == [] {
      ph', rounds' := ph, rounds;
    } else {
      ph', rounds' := NarrowStep(s, c, ph, rounds, schedule[0]);
      ph', rounds' := NarrowRun(Next(s, schedule[0]).next, c, ph', rounds', schedule[1..]);
    }
  }

  lemma NarrowStart(s: State, c: nat, n: nat)
    requires L.StartedWith(s, c, n) && s.bound <= c && 1 <= c <= |ITEM_NAMES|
    ensures Narrow(s, c, Filling, 0)
  {
    TotalZero(s.procs, Reading);
    TotalZero(s.procs, CompleteOf(c));
    TotalZero(s.procs, LevelOf(c));
    L.IndicesBound(s.queues.producers, 0);
  }

  /** Whatever the number of tokens, what is delivered are batches 0, 1, ..., c - 1, each
      read by one consumer. */
  lemma WholeInNarrowCrate(s: State, c: nat, n: nat, schedule: seq<Pid>) returns (rounds: nat, i: nat, a: Pid)
    requires L.StartedWith(s, c, n) && s.bound <= c && 1 <= c <= |ITEM_NAMES| && Run(s, schedule).Moved?
    ensures InBatches(Run(s, schedule).next.delivered, c, rounds, i, a)
  {
    NarrowStart(s, c, n);
    var ph;
    ph, rounds := NarrowRun(s, c, Filling, 0, schedule);
    i := if ph.Draining? then ph.i else 0;
    a := if ph.Draining? then ph.a else 0;
    hide InBatches, Tidy, From;
  }
}

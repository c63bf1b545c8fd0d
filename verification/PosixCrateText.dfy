/** What a consumer prints of a slot. Slots are zeroed once, when the crate is made, and
    the copied text brings no NUL: a longer text leaves its tail behind a shorter one. */
module PosixCrateText {
  import opened Processes
  import opened Numerals
  import opened Modular
  import opened CrateTypes
  import opened PosixCrate
  import opened PosixCrateInvariant
  import opened PosixCrateSafety

  // ---- one slot ----

  predicate Nameable(tag: Tag) { tag.index < |ITEM_NAMES| && tag.pid < Power10(10) }

  lemma NameFits(k: nat)
    requires k < |ITEM_NAMES|
    ensures |ITEM_NAMES[k]| <= 5 && forall i :: 0 <= i < |ITEM_NAMES[k]| ==> ITEM_NAMES[k][i] != '\0'
  {
    assert k == 0 || k == 1 || k == 2 || k == 3 || k == 4 || k == 5 || k == 6 || k == 7 || k == 8;
  }

  lemma TextFits(tag: Tag)
    requires Nameable(tag)
    ensures |TagText(tag)| == |Decimal(tag.pid)| + 3 + |ITEM_NAMES[tag.index]| < CELL_SIZE
    ensures forall i :: 0 <= i < |TagText(tag)| ==> TagText(tag)[i] != '\0'
  {
    DecimalLength(tag.pid, 10, Power10(10));
    DecimalDigits(tag.pid);
    NameFits(tag.index);
    hide Decimal, Power10;
  }

  function Length(tag: Tag): nat { if tag.index < |ITEM_NAMES| then |TagText(tag)| else 0 }

  /** The slot holds bytes of earlier texts up to position `used`, and zeros behind. */
  predicate UsedTo(cell: Cell, used: nat) {
    forall x :: 0 <= x < CELL_SIZE ==> (cell[x] != '\0' <==> x < used)
  }

  lemma ShowsTextOnly(text: string, rest: seq<char>)
    requires (forall i :: 0 <= i < |text| ==> text[i] != '\0') && rest != []
    ensures CString(text + rest) == text <==> rest[0] == '\0'
  {
    CStringAppend(text, rest);
    assert CString(rest) == [] <==> rest[0] == '\0';
    assert |text + CString(rest)| == |text| + |CString(rest)|;
    assert text + [] == text;
  }

  lemma UsesMore(cell: Cell, used: nat, text: string)
    requires UsedTo(cell, used) && |text| < CELL_SIZE && (forall i :: 0 <= i < |text| ==> text[i] != '\0')
    ensures Deposit(cell, text) == text + cell[|text|..]
    ensures UsedTo(Deposit(cell, text), if |text| > used then |text| else used)
  {
  }

  lemma DepositUses(cell: Cell, used: nat, tag: Tag)
    requires UsedTo(cell, used) && Nameable(tag)
    ensures var n := |TagText(tag)|;
            var d := Deposit(cell, TagText(tag));
            && UsedTo(d, if n > used then n else used)
            && (CString(d) == TagText(tag) <==> used <= n)
  {
    hide TagText, Power10, Deposit, CString;
    TextFits(tag);
    var text := TagText(tag);
    UsesMore(cell, used, text);
    ShowsTextOnly(text, cell[|text|..]);
    assert cell[|text|..][0] == cell[|text|];
  }

  /** The text of an item is its producer's id, which scans back, and its name. */
  lemma TagTextScans(tag: Tag)
    requires tag.index < |ITEM_NAMES|
    ensures var t, n := TagText(tag), |Decimal(tag.pid)|;
            && |t| > n && t[0] == '(' && ScanInt(t[1..]) == Match(tag.pid, n)
            && t[1 + n..] == ") " + ITEM_NAMES[tag.index]
  {
    hide Decimal, ScanInt;
    var rest := ") " + ITEM_NAMES[tag.index];
    assert TagText(tag)[1..] == Decimal(tag.pid) + rest;
    assert TagText(tag)[1 + |Decimal(tag.pid)|..] == rest;
    ScanDecimal(tag.pid, rest);
  }

  lemma TwoTexts()
    ensures TagText(Tag(100, 0)) == "(100) one" && TagText(Tag(7, 0)) == "(7) one"
    ensures TagText(Tag(100, 8)) == "(100) nine" && TagText(Tag(7, 4)) == "(7) five"
  {
    assert Decimal(10) == "10" && Decimal(100) == "100" && Decimal(7) == "7";
  }

  /** "(100) one" and then "(7) one" in the same slot is read as "(7) onene". */
  lemma TailLeftBehind(cell: Cell)
    requires UsedTo(cell, 0)
    ensures var slot := Deposit(Deposit(cell, TagText(Tag(100, 0))), TagText(Tag(7, 0)));
            TagText(Tag(7, 0)) == "(7) one" && CString(slot) == "(7) onene"
  {
    var long, short := "(100) one", "(7) one";
    hide TagText, Deposit, CString;
    TwoTexts();
    UsesMore(cell, 0, long);
    var first := Deposit(cell, long);
    UsesMore(first, 9, short);
    var tail := cell[9..];
    assert first[7..] == "ne" + tail;
    CStringAppend(short, "ne" + tail);
    CStringAppend("ne", tail);
    EndsAtOnce(tail);
    assert "ne" + [] == "ne";
  }

  lemma EndsAtOnce(s: seq<char>)
    requires s != [] && s[0] == '\0'
    ensures CString(s) == []
  {
  }

  /** Something is left to end the text: a slot never shows all of its bytes. */
  lemma NulLeft(cell: Cell, used: nat)
    requires UsedTo(cell, used) && used < CELL_SIZE
    ensures |CString(cell)| < CELL_SIZE
  {
    assert cell[CELL_SIZE - 1] == '\0';
  }

  // ---- all slots ----

  /** The longest text put so far into slot `i` of `c` slots. */
  function Longest(tags: seq<Tag>, c: nat, i: nat): nat
    requires c >= 1
  {
    if tags == [] then 0
    else
      var k := |tags| - 1;
      var before := Longest(tags[..k], c, i);
      if k % c == i && Length(tags[k]) > before then Length(tags[k]) else before
  }

  lemma {:induction false} LongestIs(tags: seq<Tag>, c: nat, i: nat, m: nat)
    requires c >= 1
    ensures Longest(tags, c, i) <= m <==> forall j :: 0 <= j < |tags| && j % c == i ==> Length(tags[j]) <= m
    decreases |tags|
  {
    if tags == [] {
    } else {
      var k := |tags| - 1;
      LongestIs(tags[..k], c, i, m);
      if Longest(tags, c, i) <= m {
        forall j | 0 <= j < |tags| && j % c == i ensures Length(tags[j]) <= m {
          if j < k { assert tags[..k][j] == tags[j]; }
        }
      } else if Longest(tags[..k], c, i) > m {
        var j :| 0 <= j < k && j % c == i && Length(tags[..k][j]) > m;
        assert tags[j] == tags[..k][j];
      }
    }
  }

  /** Slots hold what the texts put into them leave behind. */
  ghost predicate Stained(c: Crate)
    requires c.capacity >= 1
  {
    forall i :: 0 <= i < |c.data| ==> UsedTo(c.data[i], Longest(c.tags, c.capacity, i))
  }

  /** Item `k` shows its own text and nothing else exactly when no longer one was there before. */
  ghost predicate ShownAt(c: Crate, k: nat)
    requires c.capacity >= 1 && k < |c.tags| == |c.produced|
  {
    && Nameable(c.tags[k])
    && (CString(c.produced[k]) == TagText(c.tags[k])
        <==> Longest(c.tags[..k], c.capacity, k % c.capacity) <= Length(c.tags[k]))
    && |CString(c.produced[k])| < CELL_SIZE
  }

  ghost predicate Shown(c: Crate)
    requires c.capacity >= 1
  {
    |c.tags| == |c.produced| && forall k :: 0 <= k < |c.tags| ==> ShownAt(c, k)
  }

  lemma LongestFits(c: Crate, i: nat)
    requires c.capacity >= 1 && Shown(c)
    ensures Longest(c.tags, c.capacity, i) < CELL_SIZE
  {
    hide Longest;
    forall j | 0 <= j < |c.tags| && j % c.capacity == i ensures Length(c.tags[j]) <= CELL_SIZE - 1 {
      assert ShownAt(c, j);
      TextFits(c.tags[j]);
    }
    LongestIs(c.tags, c.capacity, i, CELL_SIZE - 1);
  }

  lemma WriteShows(c: Crate, p: Pid)
    requires c.capacity >= 1 && Stained(c) && Shown(c) && p < Power10(10)
    requires |c.data| == c.capacity && |c.tags| % c.capacity == c.filled && Do(c, p, PWrite).Go?
    ensures var d := Do(c, p, PWrite).crate; Stained(d) && Shown(d)
  {
    var d, tag, n := Do(c, p, PWrite).crate, Tag(p, c.filled), |c.tags|;
    hide Power10, TagText, Deposit;
    var used := Longest(c.tags, c.capacity, c.filled);
    DepositUses(c.data[c.filled], used, tag);
    assert d.tags[..n] == c.tags;
    LongestFits(c, c.filled);
    TextFits(tag);
    NulLeft(d.data[c.filled], Longest(d.tags, d.capacity, c.filled));
    forall k | 0 <= k < |d.tags| ensures ShownAt(d, k) {
      if k < n {
        assert ShownAt(c, k) && d.tags[..k] == c.tags[..k];
      }
    }
  }

  // ---- runs ----

  /** The crate as its creation leaves it, and process ids of at most ten digits. */
  ghost predicate Zeroed(s: State) {
    && (forall i, x :: 0 <= i < |s.crate.data| && 0 <= x < CELL_SIZE ==> s.crate.data[i][x] == '\0')
    && (forall p :: p in s.pcs ==> p < Power10(10))
  }

  /** Every item was put in by a producer. */
  ghost predicate Signed(s: State) {
    forall k :: 0 <= k < |s.crate.tags| ==> s.crate.tags[k].pid in s.pcs && s.pcs[s.crate.tags[k].pid].IsProducer()
  }

  ghost predicate TextInv(s: State) {
    && Inv(s) && Stained(s.crate) && Shown(s.crate) && Signed(s)
    && forall p :: p in s.pcs ==> p < Power10(10)
  }

  lemma TextInitial(s: State)
    requires Initial(s) && Zeroed(s) && s.crate.capacity >= 1
    ensures TextInv(s)
  {
    hide Inv;
    InvInitial(s);
  }

  /** Steps other than a write touch neither slots nor items. */
  lemma OtherSteps(c: Crate, p: Pid, pc: Pc)
    requires Do(c, p, pc).Go? && !pc.PWrite?
    ensures var d := Do(c, p, pc).crate;
            d.capacity == c.capacity && d.data == c.data && d.tags == c.tags && d.produced == c.produced
  {
  }

  /** A producer about to write puts the item whose number is that of its slot. */
  lemma WritesInTurn(s: State, p: Pid)
    requires Inv(s) && p in s.pcs && s.pcs[p] == PWrite
    ensures |s.crate.data| == s.crate.capacity && |s.crate.tags| % s.crate.capacity == s.crate.filled
  {
    hide Inv, Balanced, Logged, SumsOf, InLoop;
    var others := Viewpoint(s, p);
    var z := SumsOf(s.crate.capacity, s.pcs);
    InvParts(s);
    FilledAt(s.crate, s.pcs[p], others);
    LoggedSizes(s.crate, s.crate.filled + z.unrecorded, z.read);
    RemainderOf(s.crate.capacity, s.crate.batches, s.crate.filled);
  }

  lemma InvParts(s: State)
    requires Inv(s)
    ensures var z := SumsOf(s.crate.capacity, s.pcs);
            s.crate.capacity >= 1 && Balanced(s.crate, z) && Logged(s.crate, s.crate.filled + z.unrecorded, z.read)
  {
  }

  lemma LoggedSizes(c: Crate, written: nat, read: nat)
    requires Logged(c, written, read)
    ensures |c.data| == c.capacity && |c.tags| == c.capacity * c.batches + written
  {
  }

  lemma StillSigned(s: State, p: Pid)
    requires Signed(s) && Next(s, p).Moved?
    ensures Signed(Next(s, p).next)
  {
    RoleKept(s, p);
    hide TagText, Deposit;
  }

  lemma TextStep(s: State, p: Pid)
    requires TextInv(s) && Next(s, p).Moved?
    ensures TextInv(Next(s, p).next)
  {
    hide Inv, Do, Power10, Longest, Signed, Stained, Shown, Pc.IsProducer;
    assert s.crate.capacity >= 1 && Next(s, p).next.crate.capacity == s.crate.capacity by { CapacityKept(s, p); }
    InvStep(s, p);
    StillSigned(s, p);
    RoleKept(s, p);
    if s.pcs[p] == PWrite {
      WritesInTurn(s, p);
      WriteShows(s.crate, p);
    } else {
      OtherSteps(s.crate, p, s.pcs[p]);
      SameShown(s.crate, Next(s, p).next.crate);
    }
  }

  lemma CapacityKept(s: State, p: Pid)
    requires Inv(s) && Next(s, p).Moved?
    ensures s.crate.capacity >= 1 && Next(s, p).next.crate.capacity == s.crate.capacity
  {
    NextCapacity(s, p);
  }

  lemma SameShown(c: Crate, d: Crate)
    requires c.capacity >= 1 && Stained(c) && Shown(c)
    requires d.capacity == c.capacity && d.data == c.data && d.tags == c.tags && d.produced == c.produced
    ensures Stained(d) && Shown(d)
  {
    hide Longest, UsedTo, CString, TagText;
    forall k | 0 <= k < |d.tags| ensures ShownAt(d, k) {
      assert ShownAt(c, k);
    }
  }

  lemma {:induction false} TextRun(s: State, schedule: seq<Pid>)
    requires TextInv(s) && Run(s, schedule).Moved?
    ensures TextInv(Run(s, schedule).next)
    decreases |schedule|
  {
    hide TextInv, Next;
    if schedule == [] {
    } else {
      TextStep(s, schedule[0]);
      TextRun(Next(s, schedule[0]).next, schedule[1..]);
    }
  }

  /** Item `k` is shown whole exactly when no earlier item in its slot came from a process
      with a longer id; and its slot holds a NUL. */
  ghost predicate WholeWhenNoneLonger(c: Crate, k: nat) {
    && k < |c.tags| == |c.produced| && c.tags[k].index < |ITEM_NAMES| && c.capacity >= 1
    && (CString(c.produced[k]) == TagText(c.tags[k])
        <==> forall j :: 0 <= j < k && j % c.capacity == k % c.capacity ==>
               |Decimal(c.tags[j].pid)| <= |Decimal(c.tags[k].pid)|)
    && |CString(c.produced[k])| < CELL_SIZE
  }

  /** In every run, whatever item: a slot shows the item's text, and nothing behind it,
      exactly when no earlier item in that slot came from a process with a longer id;
      and it always holds a NUL. */
  lemma ShownWholeExactlyWhen(s: State, schedule: seq<Pid>, k: nat)
    requires Initial(s) && Zeroed(s) && s.crate.capacity >= 1 && Run(s, schedule).Moved?
    requires k < |Run(s, schedule).next.crate.tags|
    ensures WholeWhenNoneLonger(Run(s, schedule).next.crate, k)
  {
    TextInitial(s);
    TextRun(s, schedule);
    var c := Run(s, schedule).next.crate;
    hide Run, Initial, Power10, CString, TagText, Decimal, Longest;
    assert ShownAt(c, k);
    TextFits(c.tags[k]);
    LongestIs(c.tags[..k], c.capacity, k % c.capacity, Length(c.tags[k]));
    forall j | 0 <= j < k && j % c.capacity == k % c.capacity
      ensures Length(c.tags[j]) <= Length(c.tags[k]) <==> |Decimal(c.tags[j].pid)| <= |Decimal(c.tags[k].pid)|
    {
      assert ShownAt(c, j);
      TextFits(c.tags[j]);
      SameName(Run(s, schedule).next, j, k);
    }
    if forall j :: 0 <= j < k && j % c.capacity == k % c.capacity ==> |Decimal(c.tags[j].pid)| <= |Decimal(c.tags[k].pid)| {
      forall j | 0 <= j < k && j % c.capacity == k % c.capacity ensures Length(c.tags[..k][j]) <= Length(c.tags[k]) {
        assert c.tags[..k][j] == c.tags[j];
      }
    } else {
      var j :| 0 <= j < k && j % c.capacity == k % c.capacity && |Decimal(c.tags[j].pid)| > |Decimal(c.tags[k].pid)|;
      assert c.tags[..k][j] == c.tags[j];
    }
  }

  /** Items in the same slot have the same name. */
  lemma SameName(s: State, j: nat, k: nat)
    requires Inv(s) && j < |s.crate.tags| && k < |s.crate.tags| && j % s.crate.capacity == k % s.crate.capacity
    ensures s.crate.tags[j].index == s.crate.tags[k].index
  {
  }

  // ---- which crates always show whole items ----

  /** A schedule of one process leaves the others where they are, and it signs all it puts in. */
  lemma {:induction false} OnlyMover(s: State, schedule: seq<Pid>, p: Pid)
    requires Run(s, schedule).Moved? && (forall x :: x in schedule ==> x == p)
    ensures var t := Run(s, schedule).next;
            && t.pcs.Keys == s.pcs.Keys && (forall q :: q in s.pcs && q != p ==> t.pcs[q] == s.pcs[q])
            && s.crate.tags <= t.crate.tags
            && forall k :: |s.crate.tags| <= k < |t.crate.tags| ==> t.crate.tags[k].pid == p
    decreases |schedule|
  {
    if schedule == [] {
    } else {
      assert schedule[0] in schedule;
      OneMover(s, p);
      assert forall x :: x in schedule[1..] ==> x in schedule;
      hide Next;
      OnlyMover(Next(s, p).next, schedule[1..], p);
    }
  }

  lemma OneMover(s: State, p: Pid)
    requires Next(s, p).Moved?
    ensures var t := Next(s, p).next;
            && t.pcs.Keys == s.pcs.Keys && (forall q :: q in s.pcs && q != p ==> t.pcs[q] == s.pcs[q])
            && s.crate.tags <= t.crate.tags
            && forall k :: |s.crate.tags| <= k < |t.crate.tags| ==> t.crate.tags[k].pid == p
  {
    hide TagText, Deposit;
  }

  /** The last pass of a producer that fills the crate on its own. */
  lemma LastPass(s: State, p: Pid)
    requires s.crate.capacity >= 1 && Filling(s, p, s.crate.capacity - 1) && s.crate.capacity <= |ITEM_NAMES|
    ensures Run(s, [p, p, p, p, p, p, p]).Moved?
    ensures var t := Run(s, [p, p, p, p, p, p, p]).next;
            && t.crate.capacity == s.crate.capacity && t.crate.filled == t.crate.capacity == |t.crate.data|
            && t.crate.mem == 1 && t.crate.ready >= 1 && t.crate.tags != []
  {
    hide Run, TagText, Deposit;
    var a := Next(s, p).next;
    var b := Next(a, p).next;
    assert b.crate.filled < |ITEM_NAMES| && b.crate.filled < |b.crate.data| && b.pcs[p] == PWrite;
    var c := Next(b, p).next;
    var d := Next(c, p).next;
    var e := Next(d, p).next;
    assert e.pcs[p] == PSignal;
    var f := Next(e, p).next;
    var g := Next(f, p).next;
    PassRuns(a, b, c, d, e, f, g, p);
    Advance(s, p, Pass(p));
    assert [p] + Pass(p) == [p, p, p, p, p, p, p];
  }

  /** Consumer `r` is about to read slot `i` of a full crate. */
  ghost predicate Draining(s: State, r: Pid, i: nat) {
    && r in s.pcs && s.pcs[r] == CTest(i) && i <= s.crate.capacity
    && s.crate.filled == s.crate.capacity == |s.crate.data| && s.crate.mem == 0
    && (i > 0 ==> s.crate.permits > 0)
  }

  lemma DrainSlot(s: State, r: Pid, i: nat)
    requires Draining(s, r, i) && i < s.crate.capacity
    ensures Run(s, [r, r, r]).Moved? && Draining(Run(s, [r, r, r]).next, r, i + 1)
    ensures Run(s, [r, r, r]).next.crate.tags == s.crate.tags && Run(s, [r, r, r]).next.crate.capacity == s.crate.capacity
  {
    hide Run;
    var a := Next(s, r).next;
    var b := Next(a, r).next;
    var c := Next(b, r).next;
    ThreeSteps(s, a, b, c, r);
  }

  lemma ThreeSteps(s: State, a: State, b: State, c: State, p: Pid)
    requires Next(s, p) == Moved(a) && Next(a, p) == Moved(b) && Next(b, p) == Moved(c)
    ensures Run(s, [p, p, p]) == Moved(c)
  {
    hide Next;
    assert [p, p, p][1..] == [p, p] && [p, p][1..] == [p] && [p][1..] == [];
    assert Run(b, [p]) == Moved(c);
    assert Run(a, [p, p]) == Moved(c);
  }

  lemma {:induction false} DrainFrom(s: State, r: Pid, i: nat) returns (schedule: seq<Pid>)
    requires Draining(s, r, i)
    ensures Run(s, schedule).Moved? && Draining(Run(s, schedule).next, r, s.crate.capacity)
    ensures Run(s, schedule).next.crate.tags == s.crate.tags && Run(s, schedule).next.crate.capacity == s.crate.capacity
    ensures forall x :: x in schedule ==> x == r
    decreases s.crate.capacity - i
  {
    hide Next;
    if i == s.crate.capacity {
      schedule := [];
    } else {
      DrainSlot(s, r, i);
      var rest := DrainFrom(Run(s, [r, r, r]).next, r, i + 1);
      RunConcat(s, [r, r, r], rest);
      schedule := [r, r, r] + rest;
    }
  }

  lemma EntersDrain(s: State, r: Pid)
    requires r in s.pcs && s.pcs[r] == CWaitReady && s.crate.ready >= 1 && s.crate.mem == 1
    requires s.crate.filled == s.crate.capacity == |s.crate.data| && s.crate.capacity >= 1
    ensures Run(s, [r, r]).Moved? && Draining(Run(s, [r, r]).next, r, 0)
    ensures Run(s, [r, r]).next.crate.tags == s.crate.tags && Run(s, [r, r]).next.crate.capacity == s.crate.capacity
  {
    var a := Next(s, r).next;
    var b := Next(a, r).next;
    assert Next(s, r) == Moved(a) && Next(a, r) == Moved(b) && Draining(b, r, 0);
    hide Next;
    assert [r, r][1..] == [r] && [r][1..] == [];
    assert Run(a, [r]) == Moved(b);
  }

  lemma LeavesDrain(s: State, r: Pid)
    requires Draining(s, r, s.crate.capacity) && s.crate.capacity >= 1
    ensures Run(s, [r, r, r]).Moved?
    ensures var c := Run(s, [r, r, r]).next.crate;
            && c.filled == 0 && c.mem == 1 && c.permits > 0 && c.tags == s.crate.tags
            && c.capacity == s.crate.capacity == |c.data|
  {
    hide Run;
    var a := Next(s, r).next;
    var b := Next(a, r).next;
    var c := Next(b, r).next;
    ThreeSteps(s, a, b, c, r);
  }

  /** A consumer on its own empties a full crate. */
  lemma Empties(s: State, r: Pid) returns (schedule: seq<Pid>)
    requires r in s.pcs && s.pcs[r] == CWaitReady && s.crate.ready >= 1 && s.crate.mem == 1
    requires s.crate.filled == s.crate.capacity == |s.crate.data| && s.crate.capacity >= 1
    ensures Run(s, schedule).Moved? && (forall x :: x in schedule ==> x == r)
    ensures var c := Run(s, schedule).next.crate;
            && c.filled == 0 && c.mem == 1 && c.permits > 0 && c.tags == s.crate.tags
            && c.capacity == s.crate.capacity == |c.data|
  {
    hide Run, Next, Draining;
    EntersDrain(s, r);
    var b := Run(s, [r, r]).next;
    var drain := DrainFrom(b, r, 0);
    RunConcat(s, [r, r], drain);
    LeavesDrain(Run(b, drain).next, r);
    RunConcat(s, [r, r] + drain, [r, r, r]);
    schedule := [r, r] + drain + [r, r, r];
  }

  /** Producer `q` puts an item into the first slot. */
  lemma PutsFirst(s: State, q: Pid)
    requires q in s.pcs && s.pcs[q] == PWaitPermit && s.crate.permits > 0 && s.crate.mem == 1
    requires s.crate.filled == 0 && |s.crate.data| >= 1
    ensures Run(s, [q, q, q]).Moved?
    ensures Run(s, [q, q, q]).next.crate.tags == s.crate.tags + [Tag(q, 0)]
  {
    hide Run, TagText, Deposit;
    var a := Next(s, q).next;
    var b := Next(a, q).next;
    var c := Next(b, q).next;
    ThreeSteps(s, a, b, c, q);
  }

  /** First a producer with a long process id fills the crate, then a consumer empties
      it, then a producer with a shorter id reuses the first slot. */
  lemma ShortAfterLong(s: State, p: Pid, q: Pid, r: Pid) returns (schedule: seq<Pid>)
    requires Initial(s) && Zeroed(s) && 1 <= s.crate.capacity <= |ITEM_NAMES|
    requires p in s.pcs && q in s.pcs && r in s.pcs
    requires s.pcs[p] == s.pcs[q] == PWaitPermit && s.pcs[r] == CWaitReady
    requires |Decimal(p)| > |Decimal(q)|
    ensures Run(s, schedule).Moved?
    ensures var c := Run(s, schedule).next.crate;
            var k := |c.tags| - 1;
            && |c.produced| == |c.tags| > 0 && c.tags[k] == Tag(q, 0) && CString(c.produced[k]) != TagText(c.tags[k])
  {
    hide Next, Initial, Run, Decimal, CString, TagText, Zeroed;
    var v;
    schedule, v := LongBatch(s, p, q, r);
    PutsFirst(v, q);
    RunConcat(s, schedule, [q, q, q]);
    schedule := schedule + [q, q, q];
    var k := |v.crate.tags|;
    assert Run(s, schedule).next.crate.tags == v.crate.tags + [Tag(q, 0)];
    ShownWholeExactlyWhen(s, schedule, k);
    FirstSlot(s, schedule, k);
    ZeroMod(s.crate.capacity);
    RolesKept(s, schedule);
    assert Run(s, schedule).next.crate.tags[0].pid == p;
  }

  /** A batch of `p` alone, drained by `r` alone. */
  lemma LongBatch(s: State, p: Pid, q: Pid, r: Pid) returns (schedule: seq<Pid>, v: State)
    requires Initial(s) && 1 <= s.crate.capacity <= |ITEM_NAMES|
    requires p in s.pcs && q in s.pcs && r in s.pcs && p != q
    requires s.pcs[p] == s.pcs[q] == PWaitPermit && s.pcs[r] == CWaitReady
    ensures Run(s, schedule) == Moved(v)
    ensures v.crate.filled == 0 && v.crate.mem == 1 && v.crate.permits > 0 && |v.crate.data| >= 1
    ensures q in v.pcs && v.pcs[q] == PWaitPermit
    ensures v.crate.tags != [] && v.crate.tags[0].pid == p
  {
    assert Filling(s, p, 0);
    assert s.crate.tags == [];
    hide Next, Initial, Filling, Run, Draining;
    var fill := FillAlone(s, p, s.crate.capacity - 1);
    var t := Run(s, fill).next;
    OnlyMover(s, fill, p);
    LastPass(t, p);
    var last := [p, p, p, p, p, p, p];
    OnlyMover(t, last, p);
    var u := Run(t, last).next;
    var empty := Empties(u, r);
    v := Run(u, empty).next;
    OnlyMover(u, empty, r);
    RunConcat(s, fill, last);
    RunConcat(s, fill + last, empty);
    schedule := fill + last + empty;
  }

  lemma ZeroMod(c: nat)
    requires c >= 1
    ensures 0 % c == 0
  {
    RemainderOf(c, 0, 0);
  }

  /** The number of an item gives its slot, which is its index in the table. */
  lemma FirstSlot(s: State, schedule: seq<Pid>, k: nat)
    requires Initial(s) && s.crate.capacity >= 1 && Run(s, schedule).Moved?
    requires k < |Run(s, schedule).next.crate.tags|
    ensures var c := Run(s, schedule).next.crate; c.capacity >= 1 && c.tags[k].index == k % c.capacity
  {
    InvInitial(s);
    InvRun(s, schedule);
    hide Run, Initial;
  }

  /** Every item put in shows its own text and nothing else. */
  ghost predicate AllWhole(c: Crate) {
    && |c.tags| == |c.produced|
    && forall k :: 0 <= k < |c.tags| ==>
         c.tags[k].index < |ITEM_NAMES| && CString(c.produced[k]) == TagText(c.tags[k])
  }

  /** In every run all slots show their items whole exactly when the process ids of all
      producers have the same number of digits. */
  lemma AlwaysWholeExactlyWhen(s: State, consumer: Pid)
    requires Initial(s) && Zeroed(s) && 1 <= s.crate.capacity <= |ITEM_NAMES|
    requires consumer in s.pcs && s.pcs[consumer] == CWaitReady
    ensures (forall schedule :: Run(s, schedule).Moved? ==> AllWhole(Run(s, schedule).next.crate))
            <==> forall p, q :: p in s.pcs && q in s.pcs && s.pcs[p] == s.pcs[q] == PWaitPermit ==>
                   |Decimal(p)| == |Decimal(q)|
  {
    hide Run, Decimal, CString, TagText;
    if forall p, q :: p in s.pcs && q in s.pcs && s.pcs[p] == s.pcs[q] == PWaitPermit ==> |Decimal(p)| == |Decimal(q)| {
      forall schedule | Run(s, schedule).Moved? ensures AllWhole(Run(s, schedule).next.crate) {
        AllWholeRun(s, schedule);
      }
    } else {
      var p, q :| p in s.pcs && q in s.pcs && s.pcs[p] == s.pcs[q] == PWaitPermit && |Decimal(p)| != |Decimal(q)|;
      var schedule;
      if |Decimal(p)| > |Decimal(q)| {
        schedule := ShortAfterLong(s, p, q, consumer);
      } else {
        schedule := ShortAfterLong(s, q, p, consumer);
      }
      assert !AllWhole(Run(s, schedule).next.crate);
    }
  }

  lemma AllWholeRun(s: State, schedule: seq<Pid>)
    requires Initial(s) && Zeroed(s) && s.crate.capacity >= 1 && Run(s, schedule).Moved?
    requires forall p, q :: p in s.pcs && q in s.pcs && s.pcs[p] == s.pcs[q] == PWaitPermit ==> |Decimal(p)| == |Decimal(q)|
    ensures AllWhole(Run(s, schedule).next.crate)
  {
    var c := Run(s, schedule).next.crate;
    ProducersSign(s, schedule);
    hide Run, Decimal, CString, TagText, Power10;
    forall k | 0 <= k < |c.tags|
      ensures c.tags[k].index < |ITEM_NAMES| && |c.produced| == |c.tags| && CString(c.produced[k]) == TagText(c.tags[k])
    {
      ShownWholeExactlyWhen(s, schedule, k);
    }
    SameNumber(s, schedule);
  }

  lemma SameNumber(s: State, schedule: seq<Pid>)
    requires Initial(s) && s.crate.capacity >= 1 && Run(s, schedule).Moved?
    ensures |Run(s, schedule).next.crate.tags| == |Run(s, schedule).next.crate.produced|
  {
    InvInitial(s);
    InvRun(s, schedule);
    hide Run, Initial;
  }

  lemma ProducersSign(s: State, schedule: seq<Pid>)
    requires Initial(s) && Zeroed(s) && s.crate.capacity >= 1 && Run(s, schedule).Moved?
    ensures var c := Run(s, schedule).next.crate;
            forall k :: 0 <= k < |c.tags| ==> c.tags[k].pid in s.pcs && s.pcs[c.tags[k].pid] == PWaitPermit
  {
    TextInitial(s);
    TextRun(s, schedule);
    RolesKept(s, schedule);
    hide Run, Inv, Stained, Shown;
  }
}

/** What it means to read a line from a descriptor, whatever chunks its bytes come in. */
module LineSpec {
  /** What a descriptor yields: bytes, and moments at which nothing comes before the
      time runs out. After the last tick comes end of file, for ever. */
  datatype Tick = Byte(c: char) | Timeout

  datatype Errno = OK | ETIME | EAGAIN

  /** The returned number, errno, the bytes put into the caller's buffer, the bytes
      taken off the stream, and what is left to read. */
  datatype Result = Result(ret: int, errno: Errno, line: seq<char>, taken: seq<char>, rest: seq<Tick>)

  /** A call that puts all it takes into the caller's buffer. */
  function Whole(ret: int, errno: Errno, line: seq<char>, rest: seq<Tick>): Result {
    Result(ret, errno, line, line, rest)
  }

  function Ticks(s: seq<char>): (t: seq<Tick>)
    ensures |t| == |s| && forall i :: 0 <= i < |s| ==> t[i] == Byte(s[i])
  {
    seq(|s|, i requires 0 <= i < |s| => Byte(s[i]))
  }

  lemma TicksConcat(a: seq<char>, b: seq<char>)
    ensures Ticks(a + b) == Ticks(a) + Ticks(b)
  {
  }

  /** The byte-at-a-time reader (readline/producer.cpp, read_line_select): `have` is
      what it has read so far, `limit` the size of the buffer. */
  function ByteLine(t: seq<Tick>, have: seq<char>, limit: nat): Result
    decreases |t|
  {
    if t != [] && t[0].Timeout? then Whole(-1, ETIME, have, t[1..])
    else if |have| >= limit || t == [] then Whole(|have|, OK, have, t)
    else if t[0].c == '\n' then Whole(|have| + 1, OK, have + [t[0].c], t[1..])
    else ByteLine(t[1..], have + [t[0].c], limit)
  }

  /** The bytes up to and including the first newline, or up to where the bytes stop. */
  function Line(t: seq<Tick>): (s: seq<char>)
    ensures Ticks(s) <= t
    decreases |t|
  {
    if t == [] || t[0].Timeout? then []
    else if t[0].c == '\n' then [t[0].c]
    else
      var s := Line(t[1..]);
      StartsWith(t, s);
      [t[0].c] + s
  }

  lemma StartsWith(t: seq<Tick>, s: seq<char>)
    requires t != [] && t[0].Byte? && Ticks(s) <= t[1..]
    ensures Ticks([t[0].c] + s) <= t
  {
    var both := Ticks([t[0].c] + s);
    forall i | 0 <= i < |both| ensures both[i] == t[i] {
      if i > 0 { assert Ticks(s)[i - 1] == t[1..][i - 1]; }
    }
  }

  predicate Ended(s: seq<char>) { s != [] && s[|s| - 1] == '\n' }

  /** The buffered reader (readline/main.cpp, readline_tout). A line that does not
      fit is taken off the stream up to the size of the buffer, but only the `saved`
      bytes of it that came before the last refill are in the caller's buffer. */
  function FastLine(t: seq<Tick>, count: nat, saved: nat): Result
    requires saved <= count
  {
    var s := Line(t);
    var n := |s|;
    if n >= count then Result(0 - count, EAGAIN, s[..saved], s[..count], t[count..])
    else if Ended(s) then Whole(n, OK, s, t[n..])
    else if n == |t| then Whole(0 - n, if n > 0 then EAGAIN else OK, s, [])
    else Whole(-1, ETIME, s, t[n + 1..])
  }

  // ---- facts about Line ----

  /** Bytes without a newline are part of the line that goes on after them. */
  lemma {:induction false} LineAfter(s: seq<char>, rest: seq<Tick>)
    requires '\n' !in s
    ensures Line(Ticks(s) + rest) == s + Line(rest)
    decreases |s|
  {
    var t := Ticks(s) + rest;
    if s == [] {
      assert t == rest;
    } else {
      assert t[1..] == Ticks(s[1..]) + rest;
      LineAfter(s[1..], rest);
      Regroup(s, Line(rest));
      assert s[0] in s && t[0] == Byte(s[0]);
    }
  }

  lemma Regroup(s: seq<char>, r: seq<char>)
    requires s != []
    ensures [s[0]] + (s[1..] + r) == s + r
  {
  }

  lemma LineTo(s: seq<char>, rest: seq<Tick>)
    requires '\n' !in s
    ensures Line(Ticks(s + ['\n']) + rest) == s + ['\n']
    ensures rest == [] || rest[0].Timeout? ==> Line(Ticks(s) + rest) == s && !Ended(s)
  {
    assert Ticks(s + ['\n']) + rest == Ticks(s) + ([Byte('\n')] + rest);
    LineAfter(s, [Byte('\n')] + rest);
    LineAfter(s, rest);
  }

  /** Where the bytes of a line stop without a newline there is a timeout or the end. */
  lemma {:induction false} LineStops(t: seq<Tick>)
    ensures Ended(Line(t)) || |Line(t)| == |t| || t[|Line(t)|].Timeout?
    ensures '\n' !in Line(t) || Ended(Line(t))
    decreases |t|
  {
    if t != [] && t[0].Byte? && t[0].c != '\n' {
      LineStops(t[1..]);
    }
  }

  // ---- the two readers agree ----

  /** Equal up to the sign of an unterminated last line. */
  predicate SameCall(fast: Result, simple: Result) {
    && fast.line == simple.line && fast.taken == simple.taken && fast.rest == simple.rest
    && if fast.errno == EAGAIN then fast.ret == -simple.ret && simple.errno == OK && !Ended(fast.line) && simple.rest == []
       else fast.ret == simple.ret && fast.errno == simple.errno
  }

  /** What both readers return for a line that fits, given what was read before it. */
  function ShortResult(t: seq<Tick>, have: seq<char>): Result {
    assert |Line(t)| == |Ticks(Line(t))| <= |t|;
    Taking(Line(t), t, have)
  }

  function Taking(s: seq<char>, t: seq<Tick>, have: seq<char>): Result
    requires |s| <= |t|
  {
    var n := |s|;
    if Ended(s) || n == |t| then Whole(|have| + n, OK, have + s, t[n..])
    else Whole(-1, ETIME, have + s, t[n + 1..])
  }

  lemma ShortResultStep(t: seq<Tick>, have: seq<char>)
    requires t != [] && t[0].Byte? && t[0].c != '\n'
    ensures ShortResult(t, have) == ShortResult(t[1..], have + [t[0].c])
  {
    var c, s := t[0].c, Line(t[1..]);
    assert Line(t) == [c] + s;
    hide Line;
    assert |s| == |Ticks(s)| <= |t[1..]|;
    TakingStep(c, s, t, have);
  }

  lemma TakingStep(c: char, s: seq<char>, t: seq<Tick>, have: seq<char>)
    requires c != '\n' && |s| < |t|
    ensures Taking([c] + s, t, have) == Taking(s, t[1..], have + [c])
  {
    EndedAfter(c, s);
    Prepend(have, c, s);
    TailOfTail(t, |s|);
    if |s| + 1 < |t| {
      TailOfTail(t, |s| + 1);
    }
    hide Ended;
  }

  lemma Prepend(have: seq<char>, c: char, s: seq<char>)
    ensures have + [c] + s == have + ([c] + s)
  {
  }

  lemma EndedAfter(c: char, s: seq<char>)
    requires c != '\n'
    ensures Ended([c] + s) == Ended(s)
  {
  }

  lemma TailOfTail(t: seq<Tick>, k: nat)
    requires k + 1 <= |t|
    ensures t[1..][k..] == t[k + 1..]
  {
  }

  lemma {:induction false} ByteLineIs(t: seq<Tick>, have: seq<char>, limit: nat)
    requires |have| + |Line(t)| < limit
    ensures ByteLine(t, have, limit) == ShortResult(t, have)
    decreases |t|
  {
    if t != [] && t[0].Byte? && t[0].c != '\n' {
      ShortResultStep(t, have);
      hide ShortResult;
      ByteLineIs(t[1..], have + [t[0].c], limit);
    } else {
      assert have + [] == have;
    }
  }

  lemma OneCall(t: seq<Tick>, count: nat, saved: nat)
    requires |Line(t)| < count && saved <= count
    ensures SameCall(FastLine(t, count, saved), ByteLine(t, [], count))
  {
    hide ByteLine, Line;
    ByteLineIs(t, [], count);
    assert [] + Line(t) == Line(t);
  }

  /** An overlong line fills the buffer of the byte-at-a-time reader, which takes
      `limit` bytes off the stream and then, perhaps, a timeout. */
  lemma {:induction false} OverlongLine(t: seq<Tick>, have: seq<char>, limit: nat)
    requires |have| <= limit <= |have| + |Line(t)|
    ensures var r := ByteLine(t, have, limit);
            var n := limit - |have|;
            && n <= |t| && r.line == have + Line(t)[..n]
            && if r.errno == ETIME then n < |t| && r.rest == t[n + 1..]
               else r.ret == limit && r.errno == OK && r.rest == t[n..]
    decreases |t|
  {
    assert |Line(t)| == |Ticks(Line(t))| <= |t|;
    if t != [] && t[0].Byte? && |have| < limit && t[0].c != '\n' {
      var c, s, n := t[0].c, Line(t[1..]), limit - |have| - 1;
      OverlongLine(t[1..], have + [c], limit);
      hide ByteLine, Line;
      FrontOf(c, s, n);
      Prepend(have, c, s[..n]);
      TailOfTail(t, n);
      if n + 1 < |t| { TailOfTail(t, n + 1); }
    } else if t != [] && t[0].Byte? && |have| < limit {
      assert Line(t) == [t[0].c];
    } else {
      assert have + Line(t)[..0] == have;
    }
  }

  lemma FrontOf(c: char, s: seq<char>, n: nat)
    requires n <= |s|
    ensures ([c] + s)[..n + 1] == [c] + s[..n]
  {
  }

  /** The readers agree on a call exactly when the line is shorter than the buffer. */
  lemma AgreeExactlyWhen(t: seq<Tick>, count: nat, saved: nat)
    requires saved < count
    ensures SameCall(FastLine(t, count, saved), ByteLine(t, [], count)) <==> |Line(t)| < count
  {
    hide ByteLine, Line;
    if |Line(t)| < count {
      OneCall(t, count, saved);
    } else {
      OverlongLine(t, [], count);
    }
  }

  /** A buffer's worth of bytes and then the end of file: the buffered reader takes
      them all, gives the caller none of them and reports them as an unterminated
      line; the byte-at-a-time reader delivers them. */
  lemma LostAtTheBoundary(s: seq<char>, count: nat)
    requires |s| == count >= 1 && '\n' !in s
    ensures FastLine(Ticks(s), count, 0) == Result(0 - count, EAGAIN, [], s, [])
    ensures ByteLine(Ticks(s), [], count) == Whole(count, OK, s, [])
  {
    LineTo(s, []);
    assert Ticks(s) + [] == Ticks(s);
    assert s[..count] == s;
    assert Ticks(s)[count..] == [];
    OverlongLine(Ticks(s), [], count);
    hide ByteLine, Line;
    assert [] + s == s;
    DeliversTaken(Ticks(s), [], count);
  }

  /** In every call the byte-at-a-time reader delivers what it takes. */
  lemma {:induction false} DeliversTaken(t: seq<Tick>, have: seq<char>, limit: nat)
    ensures ByteLine(t, have, limit).line == ByteLine(t, have, limit).taken
    decreases |t|
  {
    if t == [] || t[0].Timeout? || |have| >= limit || t[0].c == '\n' {
    } else {
      DeliversTaken(t[1..], have + [t[0].c], limit);
    }
  }

  // ---- calls in a row ----

  /** Every line, with its newline, is shorter than `count`. */
  ghost predicate ShortLines(t: seq<Tick>, count: nat) {
    forall i :: 0 <= i <= |t| ==> |Line(t[i..])| < count
  }

  /** `saved`, call by call, is what has been saved of an overlong line. */
  function First(saved: seq<nat>, count: nat): (k: nat)
    ensures k < count || k == 0
  {
    if saved != [] && saved[0] < count then saved[0] else 0
  }

  function Others(saved: seq<nat>): seq<nat> { if saved == [] then [] else saved[1..] }

  /** `n` calls in a row. */
  function FastCalls(t: seq<Tick>, count: nat, saved: seq<nat>, n: nat): (calls: seq<Result>)
    ensures |calls| == n
    decreases n
  {
    if n == 0 then []
    else
      var r := FastLine(t, count, First(saved, count));
      [r] + FastCalls(r.rest, count, Others(saved), n - 1)
  }

  function SimpleCalls(t: seq<Tick>, count: nat, n: nat): (calls: seq<Result>)
    ensures |calls| == n
    decreases n
  {
    if n == 0 then [] else var r := ByteLine(t, [], count); [r] + SimpleCalls(r.rest, count, n - 1)
  }

  predicate AllSame(fast: seq<Result>, simple: seq<Result>) {
    |fast| == |simple| && forall i :: 0 <= i < |fast| ==> SameCall(fast[i], simple[i])
  }

  /** Call by call the readers deliver and consume the same. */
  predicate CallsAgree(t: seq<Tick>, count: nat, saved: seq<nat>, n: nat) {
    AllSame(FastCalls(t, count, saved, n), SimpleCalls(t, count, n))
  }

  lemma AllSameAfter(x: Result, a: seq<Result>, y: Result, b: seq<Result>)
    ensures AllSame([x] + a, [y] + b) <==> SameCall(x, y) && AllSame(a, b)
  {
    hide SameCall;
    var c, d := [x] + a, [y] + b;
    assert c[1..] == a && d[1..] == b;
    if AllSame(c, d) {
      assert SameCall(c[0], d[0]);
      forall i | 0 <= i < |a| ensures SameCall(a[i], b[i]) {
        assert SameCall(c[i + 1], d[i + 1]);
      }
    }
  }

  lemma CallsAgreeStep(t: seq<Tick>, count: nat, saved: seq<nat>, n: nat)
    requires n >= 1
    ensures var fast, simple := FastLine(t, count, First(saved, count)), ByteLine(t, [], count);
            CallsAgree(t, count, saved, n) <==>
              SameCall(fast, simple) && CallsAgree(fast.rest, count, Others(saved), n - 1)
  {
    hide FastLine, ByteLine, SameCall, First, Others, AllSame;
    var fast, simple := FastLine(t, count, First(saved, count)), ByteLine(t, [], count);
    var more, simpleMore := FastCalls(fast.rest, count, Others(saved), n - 1), SimpleCalls(simple.rest, count, n - 1);
    AllSameAfter(fast, more, simple, simpleMore);
    if SameCall(fast, simple) { SameRest(fast, simple); }
  }

  lemma SameRest(fast: Result, simple: Result)
    requires SameCall(fast, simple)
    ensures fast.rest == simple.rest
  {
  }

  /** Any number of calls agree when every line is shorter than the caller's buffer. */
  lemma {:induction false} SameCalls(t: seq<Tick>, count: nat, saved: seq<nat>, n: nat)
    requires ShortLines(t, count)
    ensures CallsAgree(t, count, saved, n)
    decreases n
  {
    hide FastLine, ByteLine, SameCall, CallsAgree, Line;
    if n == 0 {
      NoCalls(t, count, saved);
    } else {
      assert t[0..] == t;
      var k := First(saved, count);
      OneCall(t, count, k);
      RestIsSuffix(t, count, k);
      SuffixShort(t, count, |t| - |FastLine(t, count, k).rest|);
      SameCalls(FastLine(t, count, k).rest, count, Others(saved), n - 1);
      CallsAgreeStep(t, count, saved, n);
    }
  }

  lemma NoCalls(t: seq<Tick>, count: nat, saved: seq<nat>)
    ensures CallsAgree(t, count, saved, 0)
  {
  }

  /** When the first line is short and the calls on the rest are, all lines are short. */
  lemma ShortByCalls(t: seq<Tick>, count: nat, saved: nat)
    requires saved < count && |Line(t)| < count && ShortLines(FastLine(t, count, saved).rest, count)
    ensures ShortLines(t, count)
  {
    var r := FastLine(t, count, saved);
    RestIsSuffix(t, count, saved);
    var k := |t| - |r.rest|;
    InsideLine(t, count, saved);
    hide FastLine, Line;
    forall i | 0 <= i <= |t| ensures |Line(t[i..])| < count {
      if i >= k {
        ShortAt(r.rest, count, i - k);
        SuffixOf(t, k, i);
      } else {
        LineInside(t, i);
      }
    }
  }

  lemma ShortAt(t: seq<Tick>, count: nat, i: nat)
    requires ShortLines(t, count) && i <= |t|
    ensures |Line(t[i..])| < count
  {
  }

  lemma SuffixOf(t: seq<Tick>, k: nat, i: nat)
    requires k <= i <= |t|
    ensures t[k..][i - k..] == t[i..]
  {
  }

  /** Positions that a call has taken are in its line, or at the pause behind it. */
  lemma InsideLine(t: seq<Tick>, count: nat, saved: nat)
    requires saved < count && |Line(t)| < count
    ensures var k := |t| - |FastLine(t, count, saved).rest|;
            forall i :: 0 <= i < k ==> i <= |Line(t)| && (i == |Line(t)| ==> t[i].Timeout?)
  {
    LineStops(t);
    assert |Line(t)| == |Ticks(Line(t))| <= |t|;
    hide Line;
  }

  /** What a line still holds further on is no longer than the line. */
  lemma {:induction false} LineInside(t: seq<Tick>, i: nat)
    requires i <= |t| && i <= |Line(t)|
    requires i == |Line(t)| ==> i == |t| || t[i].Timeout?
    ensures |Line(t[i..])| <= |Line(t)|
    decreases i
  {
    if i == 0 {
      assert t[0..] == t;
    } else if i == |t| {
      assert t[i..] == [];
    } else {
      assert t[i..] == t[1..][i - 1..];
      if t[0].Byte? && t[0].c != '\n' {
        LineInside(t[1..], i - 1);
      }
    }
  }

  /** However many calls are made, they agree exactly when every line is shorter than
      the caller's buffer. */
  lemma {:induction false} CallsAgreeExactlyWhen(t: seq<Tick>, count: nat, saved: seq<nat>)
    requires count >= 1
    ensures CallsAgree(t, count, saved, |t| + 1) <==> ShortLines(t, count)
    ensures ShortLines(t, count) ==> forall n :: CallsAgree(t, count, saved, n)
    decreases |t|
  {
    var k := First(saved, count);
    var r := FastLine(t, count, k);
    forall n | ShortLines(t, count) ensures CallsAgree(t, count, saved, n) {
      SameCalls(t, count, saved, n);
    }
    hide FastLine, ByteLine, SameCall, CallsAgree, Line;
    if CallsAgree(t, count, saved, |t| + 1) {
      CallsAgreeStep(t, count, saved, |t| + 1);
      AgreeExactlyWhen(t, count, k);
      if t == [] {
        ShortNothing(count);
      } else {
        CallTakes(t, count, k);
        Fewer(r.rest, count, Others(saved), |t|);
        CallsAgreeExactlyWhen(r.rest, count, Others(saved));
        ShortByCalls(t, count, k);
      }
    }
  }

  lemma ShortNothing(count: nat)
    requires count >= 1
    ensures ShortLines([], count)
  {
    var t: seq<Tick> := [];
    assert t[0..] == t;
  }

  /** Calls that agree agree up to any number of them. */
  lemma {:induction false} Fewer(t: seq<Tick>, count: nat, saved: seq<nat>, n: nat)
    requires CallsAgree(t, count, saved, n) && |t| < n
    ensures CallsAgree(t, count, saved, |t| + 1)
  {
    FewerCalls(t, count, saved, n, |t| + 1);
  }

  lemma {:induction false} FewerCalls(t: seq<Tick>, count: nat, saved: seq<nat>, n: nat, m: nat)
    requires CallsAgree(t, count, saved, n) && m <= n
    ensures CallsAgree(t, count, saved, m)
    decreases m
  {
    hide FastLine, ByteLine, SameCall, CallsAgree;
    if m == 0 {
      NoCalls(t, count, saved);
    } else {
      CallsAgreeStep(t, count, saved, n);
      CallsAgreeStep(t, count, saved, m);
      FewerCalls(FastLine(t, count, First(saved, count)).rest, count, Others(saved), n - 1, m - 1);
    }
  }

  lemma RestIsSuffix(t: seq<Tick>, count: nat, saved: nat)
    requires saved <= count
    ensures var r := FastLine(t, count, saved); |r.rest| <= |t| && r.rest == t[|t| - |r.rest|..]
  {
    hide Line;
    LineStops(t);
    assert |Line(t)| == |Ticks(Line(t))| <= |t|;
    hide Ticks;
    assert t[|t|..] == [];
  }

  lemma SuffixShort(t: seq<Tick>, count: nat, k: nat)
    requires ShortLines(t, count) && k <= |t|
    ensures ShortLines(t[k..], count)
  {
    forall i | 0 <= i <= |t[k..]| ensures |Line(t[k..][i..])| < count {
      assert t[k..][i..] == t[k + i..];
    }
  }

  /** Without timeouts nothing is lost: the lines delivered are the bytes of the
      stream, whole, in order. */
  lemma {:induction false} NothingLost(t: seq<Tick>, count: nat, saved: seq<nat>, n: nat)
    requires ShortLines(t, count) && (forall i :: 0 <= i < |t| ==> t[i].Byte?)
    ensures var calls := FastCalls(t, count, saved, n); Ticks(Joined(calls)) + Remaining(t, calls) == t
    decreases n
  {
    if n == 0 {
    } else {
      assert t[0..] == t;
      var k := First(saved, count);
      var r := FastLine(t, count, k);
      WholeLine(t, count, k);
      RestIsSuffix(t, count, k);
      SuffixShort(t, count, |t| - |r.rest|);
      var more := FastCalls(r.rest, count, Others(saved), n - 1);
      NothingLost(r.rest, count, Others(saved), n - 1);
      hide FastLine, ShortLines;
      assert FastCalls(t, count, saved, n)[1..] == more;
      TicksConcat(r.line, Joined(more));
      Reassociate(Ticks(r.line), Ticks(Joined(more)), Remaining(r.rest, more), r.rest, t);
    }
  }

  /** What is left to read after some calls on `t`. */
  function Remaining(t: seq<Tick>, calls: seq<Result>): seq<Tick> {
    if calls == [] then t else calls[|calls| - 1].rest
  }

  lemma Reassociate(a: seq<Tick>, b: seq<Tick>, c: seq<Tick>, r: seq<Tick>, t: seq<Tick>)
    requires a + r == t && b + c == r
    ensures (a + b) + c == t
  {
  }

  lemma WholeLine(t: seq<Tick>, count: nat, saved: nat)
    requires saved <= count
    requires |Line(t)| < count && (forall i :: 0 <= i < |t| ==> t[i].Byte?)
    ensures Ticks(FastLine(t, count, saved).line) + FastLine(t, count, saved).rest == t
  {
    LineStops(t);
    hide Line;
    var n := |Line(t)|;
    assert t == t[..n] + t[n..];
  }

  function Joined(calls: seq<Result>): seq<char> {
    if calls == [] then [] else calls[0].line + Joined(calls[1..])
  }

  // ---- a whole session ----

  /** The bytes of a stream, whatever pauses lie between them. */
  function Bytes(t: seq<Tick>): seq<char> {
    if t == [] then []
    else if t[0].Byte? then [t[0].c] + Bytes(t[1..])
    else Bytes(t[1..])
  }

  lemma {:induction false} BytesAfter(s: seq<char>, rest: seq<Tick>)
    ensures Bytes(Ticks(s) + rest) == s + Bytes(rest)
    decreases |s|
  {
    var t := Ticks(s) + rest;
    if s == [] {
      assert t == rest;
    } else {
      assert t[1..] == Ticks(s[1..]) + rest;
      BytesAfter(s[1..], rest);
      Regroup(s, Bytes(rest));
    }
  }

  predicate Finished(r: Result) { r.ret <= 0 && r.errno == OK }

  /** A call takes its line off the stream and, when it is late, the pause after it. */
  lemma CallTakes(t: seq<Tick>, count: nat, saved: nat)
    requires count >= 1 && saved <= count
    ensures var r := FastLine(t, count, saved);
            && t == Ticks(r.taken) + (if r.errno == ETIME then [Timeout] else []) + r.rest
            && (if Finished(r) then t == [] && r == Whole(0, OK, [], []) else |r.rest| < |t|)
  {
    var s := Line(t);
    assert |s| == |Ticks(s)| <= |t|;
    LineStops(t);
    var n := if |s| >= count then count else |s|;
    SplitAt(t, s, n);
    assert s[..|s|] == s;
    hide Line, Ticks;
    GapSplit(Ticks(s[..n]), t, n);
    hide Ended;
    if n == |t| { assert t[n..] == []; }
  }

  lemma GapSplit(a: seq<Tick>, t: seq<Tick>, n: nat)
    requires n <= |t|
    ensures a + [] + t[n..] == a + t[n..]
    ensures n < |t| && t[n].Timeout? ==> a + [Timeout] + t[n + 1..] == a + t[n..]
  {
    if n < |t| && t[n].Timeout? { assert t[n..] == [Timeout] + t[n + 1..]; }
  }

  lemma SplitAt(t: seq<Tick>, s: seq<char>, k: nat)
    requires Ticks(s) <= t && k <= |s|
    ensures t == Ticks(s[..k]) + t[k..]
  {
    assert t[..k] == Ticks(s[..k]);
  }

  /** What the caller learns from the result of the buffered reader: the length of a line
      or the end of the file, a timeout, or how much has been taken of a line that did not
      fit or was not ended. */
  lemma FastResultTells(t: seq<Tick>, count: nat, saved: nat)
    requires count >= 1 && saved <= count
    ensures var r := FastLine(t, count, saved);
            match r.errno
            case OK => r.ret == |r.line| && r.line == r.taken && if r.ret > 0 then Ended(r.line) else t == []
            case ETIME => r.ret == -1 && r.line == r.taken && '\n' !in r.taken && t == Ticks(r.taken) + [Timeout] + r.rest
            case EAGAIN => r.ret == 0 - |r.taken| && r.ret < 0
                           && (|r.taken| == count || (t == Ticks(r.taken) && '\n' !in r.taken && r.line == r.taken))
  {
    CallTakes(t, count, saved);
    LineStops(t);
    hide Line;
    var r := FastLine(t, count, saved);
    if r.rest == [] { assert Ticks(r.taken) + [] + r.rest == Ticks(r.taken); }
  }

  /** And from the byte-at-a-time reader: the number of bytes delivered, or a timeout. */
  lemma {:induction false} ByteResultTells(t: seq<Tick>, have: seq<char>, count: nat)
    requires |have| <= count && '\n' !in have
    ensures var r := ByteLine(t, have, count);
            match r.errno
            case OK => r.ret == |r.line| <= count && (Ended(r.line) || r.ret == count || r.rest == [])
            case ETIME => r.ret == -1 && '\n' !in r.line
            case EAGAIN => false
    decreases |t|
  {
    if t != [] && t[0].Byte? && |have| < count && t[0].c != '\n' {
      ByteResultTells(t[1..], have + [t[0].c], count);
    }
  }

  /** Calls until one reports the end of the file. */
  function Session(t: seq<Tick>, count: nat, saved: seq<nat>): (calls: seq<Result>)
    requires count >= 1
    ensures calls != []
    decreases |t|
  {
    var k := First(saved, count);
    CallTakes(t, count, k);
    var r := FastLine(t, count, k);
    if Finished(r) then [r] else [r] + Session(r.rest, count, Others(saved))
  }

  function Taken(calls: seq<Result>): seq<char> {
    if calls == [] then [] else calls[0].taken + Taken(calls[1..])
  }

  lemma CallBytes(t: seq<Tick>, count: nat, saved: nat)
    requires count >= 1 && saved <= count
    ensures var r := FastLine(t, count, saved); Bytes(t) == r.taken + Bytes(r.rest)
  {
    CallTakes(t, count, saved);
    hide FastLine;
    var r := FastLine(t, count, saved);
    BytesOverGap(r.taken, if r.errno == ETIME then [Timeout] else [], r.rest);
  }

  lemma BytesOverGap(s: seq<char>, gap: seq<Tick>, rest: seq<Tick>)
    requires gap == [] || gap == [Timeout]
    ensures Bytes(Ticks(s) + gap + rest) == s + Bytes(rest)
  {
    assert Ticks(s) + gap + rest == Ticks(s) + (gap + rest);
    BytesAfter(s, gap + rest);
    hide Ticks;
    if gap == [] {
      assert gap + rest == rest;
    } else {
      assert (gap + rest)[1..] == rest;
    }
  }

  /** Whatever pauses and overlong lines there are: the calls of a session take every
      byte of the stream exactly once, in order. */
  lemma {:induction false} SessionTakesAll(t: seq<Tick>, count: nat, saved: seq<nat>)
    requires count >= 1
    ensures Taken(Session(t, count, saved)) == Bytes(t)
    decreases |t|
  {
    hide FastLine, Finished;
    var k := First(saved, count);
    CallTakes(t, count, k);
    CallBytes(t, count, k);
    var r := FastLine(t, count, k);
    if Finished(r) {
      assert Taken([r][1..]) == [];
    } else {
      SessionTakesAll(r.rest, count, Others(saved));
      assert Session(t, count, saved)[1..] == Session(r.rest, count, Others(saved));
    }
  }

  // ---- what a session keeps ----

  /** The lines of the calls that were not late. */
  function Kept(calls: seq<Result>): seq<char> {
    if calls == [] then []
    else (if calls[0].errno == ETIME then [] else calls[0].line) + Kept(calls[1..])
  }

  /** Every pause comes between lines, or next to another pause. */
  ghost predicate PausesBetweenLines(t: seq<Tick>) {
    forall i :: 0 <= i < |t| && t[i].Timeout? ==> i == 0 || t[i - 1].Timeout? || t[i - 1] == Byte('\n')
  }

  /** What comes after a line or a pause, or goes on with a byte, stands for itself. */
  lemma PausesAfter(front: seq<Tick>, rest: seq<Tick>)
    requires front == [] || front[|front| - 1].Timeout? || front[|front| - 1] == Byte('\n')
             || rest == [] || rest[0].Byte?
    ensures PausesBetweenLines(front + rest) <==> PausesBetweenLines(front) && PausesBetweenLines(rest)
  {
    var t, n := front + rest, |front|;
    if PausesBetweenLines(t) {
      forall i | 0 <= i < n && front[i].Timeout?
        ensures i == 0 || front[i - 1].Timeout? || front[i - 1] == Byte('\n')
      {
        assert t[i] == front[i];
        if i > 0 { assert t[i - 1] == front[i - 1]; }
      }
      forall i | 0 <= i < |rest| && rest[i].Timeout?
        ensures i == 0 || rest[i - 1].Timeout? || rest[i - 1] == Byte('\n')
      {
        assert t[n + i] == rest[i];
        if i > 0 { assert t[n + i - 1] == rest[i - 1]; }
      }
    }
    if PausesBetweenLines(front) && PausesBetweenLines(rest) {
      forall i | 0 <= i < |t| && t[i].Timeout?
        ensures i == 0 || t[i - 1].Timeout? || t[i - 1] == Byte('\n')
      {
        if i < n {
          assert front[i] == t[i];
          if i > 0 { assert front[i - 1] == t[i - 1]; }
        } else {
          assert rest[i - n] == t[i];
          if i > n { assert rest[i - n - 1] == t[i - 1]; } else if i > 0 { assert front[n - 1] == t[i - 1]; }
        }
      }
    }
  }

  lemma PauseAtTheEnd(s: seq<char>)
    requires '\n' !in s
    ensures PausesBetweenLines(Ticks(s) + [Timeout]) <==> s == []
  {
    var t := Ticks(s) + [Timeout];
    if s != [] {
      assert s[|s| - 1] in s;
      assert t[|s|].Timeout? && t[|s| - 1] == Byte(s[|s| - 1]);
    }
  }

  /** Bytes in front of a pause or of the rest of the stream. */
  lemma PausesSplit(s: seq<char>, pause: bool, rest: seq<Tick>)
    requires '\n' !in s || ('\n' !in s[..|s| - 1] && Ended(s))
    requires pause ==> '\n' !in s
    requires !pause && s != [] && !Ended(s) ==> rest == [] || rest[0].Byte?
    ensures PausesBetweenLines(Ticks(s) + (if pause then [Timeout] else []) + rest)
            <==> (pause ==> s == []) && PausesBetweenLines(rest)
  {
    if pause {
      PauseAtTheEnd(s);
      PausesAfter(Ticks(s) + [Timeout], rest);
    } else {
      assert Ticks(s) + [] == Ticks(s);
      PausesAfter(Ticks(s), rest);
    }
  }

  /** One call of a session in which the line fits. */
  lemma CallKeeps(t: seq<Tick>, count: nat, saved: nat)
    requires saved <= count && |Line(t)| < count
    ensures var r := FastLine(t, count, saved);
            && r.line == r.taken
            && (PausesBetweenLines(t) <==> (r.errno == ETIME ==> r.line == []) && PausesBetweenLines(r.rest))
  {
    CallTakes(t, count, saved);
    LineStops(t);
    NewlineLast(t);
    hide Line;
    var r := FastLine(t, count, saved);
    PausesSplit(r.taken, r.errno == ETIME, r.rest);
  }

  lemma {:induction false} NewlineLast(t: seq<Tick>)
    ensures '\n' !in Line(t) || ('\n' !in Line(t)[..|Line(t)| - 1] && Ended(Line(t)))
    decreases |t|
  {
    if t == [] || t[0].Timeout? || t[0].c == '\n' {
    } else {
      NewlineLast(t[1..]);
      NewlineLater(t[0].c, Line(t[1..]));
    }
  }

  lemma NewlineLater(c: char, s: seq<char>)
    requires c != '\n' && ('\n' !in s || ('\n' !in s[..|s| - 1] && Ended(s)))
    ensures '\n' !in [c] + s || ('\n' !in ([c] + s)[..|s|] && Ended([c] + s))
  {
    if s != [] { assert ([c] + s)[..|s|] == [c] + s[..|s| - 1]; }
  }

  /** A call that fills the buffer delivers less than it takes. */
  lemma OverlongCall(t: seq<Tick>, count: nat, saved: nat)
    requires saved < count <= |Line(t)|
    ensures var r := FastLine(t, count, saved);
            !Finished(r) && r.errno != ETIME && |r.line| < |r.taken|
    ensures !ShortLines(t, count)
  {
    hide Line;
    assert t[0..] == t;
  }

  /** Behind a line that fits all lines fit exactly when they did before. */
  lemma ShortSplit(t: seq<Tick>, count: nat, saved: nat)
    requires saved < count && |Line(t)| < count
    ensures ShortLines(t, count) <==> ShortLines(FastLine(t, count, saved).rest, count)
  {
    var r := FastLine(t, count, saved);
    RestIsSuffix(t, count, saved);
    hide FastLine, Line, ShortLines;
    if ShortLines(t, count) {
      SuffixShort(t, count, |t| - |r.rest|);
    } else if ShortLines(r.rest, count) {
      ShortByCalls(t, count, saved);
    }
  }

  /** A session of the buffered reader keeps all bytes of the stream exactly when every
      line, with its newline, is shorter than the buffer and no pause falls into a line. */
  lemma {:induction false} KeepsAllExactlyWhen(t: seq<Tick>, count: nat, saved: seq<nat>)
    requires count >= 1
    ensures |Kept(Session(t, count, saved))| <= |Bytes(t)|
    ensures Kept(Session(t, count, saved)) == Bytes(t) <==> ShortLines(t, count) && PausesBetweenLines(t)
    decreases |t|
  {
    hide FastLine, Finished, Line, ShortLines, PausesBetweenLines, Bytes;
    var k := First(saved, count);
    CallTakes(t, count, k);
    CallBytes(t, count, k);
    var r := FastLine(t, count, k);
    if Finished(r) {
      NothingKept(r, count);
    } else {
      KeepsAllExactlyWhen(r.rest, count, Others(saved));
      var more := Session(r.rest, count, Others(saved));
      KeptAfter(r, more);
      assert Session(t, count, saved) == [r] + more;
      if |Line(t)| < count {
        CallKeeps(t, count, k);
        ShortSplit(t, count, k);
        KeptSplit(r.line, r.errno == ETIME, Kept(more), Bytes(r.rest));
      } else {
        OverlongCall(t, count, k);
      }
    }
  }

  lemma KeptAfter(r: Result, more: seq<Result>)
    ensures Kept([r] + more) == (if r.errno == ETIME then [] else r.line) + Kept(more)
  {
    assert ([r] + more)[1..] == more;
  }

  lemma NothingKept(r: Result, count: nat)
    requires r == Whole(0, OK, [], []) && count >= 1
    ensures Kept([r]) == Bytes([]) == [] && ShortLines([], count) && PausesBetweenLines([])
  {
    assert [r][1..] == [];
    ShortNothing(count);
  }

  lemma KeptSplit(line: seq<char>, late: bool, kept: seq<char>, bytes: seq<char>)
    requires |kept| <= |bytes|
    ensures (if late then [] else line) + kept == line + bytes <==> (late ==> line == []) && kept == bytes
  {
    if late {
      assert [] + kept == kept;
      if line != [] { assert |kept| < |line + bytes|; }
    } else if line + kept == line + bytes {
      assert kept == (line + kept)[|line|..];
      assert bytes == (line + bytes)[|line|..];
    }
  }

  /** What ends a session of the byte-at-a-time reader. */
  lemma {:induction false} ByteLineTakes(t: seq<Tick>, have: seq<char>, count: nat)
    requires |have| < count || t != []
    requires |have| < count || t[0].Timeout?
    ensures var r := ByteLine(t, have, count);
            if t == [] then r == Whole(|have|, OK, have, []) else |r.rest| < |t| && r.ret != 0
    decreases |t|
  {
    if t == [] || t[0].Timeout? || t[0].c == '\n' {
    } else if |have| + 1 == count && t[1..] != [] && t[1].Byte? {
    } else if |have| + 1 < count || t[1..] != [] {
      ByteLineTakes(t[1..], have + [t[0].c], count);
    }
  }

  /** Calls of the byte-at-a-time reader until one returns 0. */
  function SimpleSession(t: seq<Tick>, count: nat): (calls: seq<Result>)
    requires count >= 1
    ensures calls != []
    decreases |t|
  {
    ByteLineTakes(t, [], count);
    var r := ByteLine(t, [], count);
    if r.ret == 0 then [r] else [r] + SimpleSession(r.rest, count)
  }

  /** The bytes that a call of the byte-at-a-time reader adds to what it has. */
  lemma {:induction false} ByteLineParts(t: seq<Tick>, have: seq<char>, count: nat)
    ensures var r := ByteLine(t, have, count);
            && have <= r.line && r.line == r.taken
            && var s, late := r.line[|have|..], r.errno == ETIME;
               && t == Ticks(s) + (if late then [Timeout] else []) + r.rest
               && ('\n' !in s || ('\n' !in s[..|s| - 1] && Ended(s))) && (late ==> '\n' !in s)
               && (!late && !Ended(s) ==> r.rest == [] || r.rest[0].Byte?)
    decreases |t|
  {
    if t == [] || t[0].Timeout? || |have| >= count {
      PartsNone(t, have);
    } else if t[0].c == '\n' {
      PartsNewline(t, have);
    } else {
      var c := t[0].c;
      ByteLineParts(t[1..], have + [c], count);
      var r := ByteLine(t[1..], have + [c], count);
      hide ByteLine;
      PartsLater(t, c, have, r.line, r.errno == ETIME, r.rest);
    }
  }

  lemma PartsNone(t: seq<Tick>, have: seq<char>)
    ensures have[|have|..] == [] && Ticks([]) + [] + t == t
    ensures t != [] && t[0].Timeout? ==> Ticks([]) + [Timeout] + t[1..] == t
  {
  }

  lemma PartsNewline(t: seq<Tick>, have: seq<char>)
    requires t != [] && t[0] == Byte('\n')
    ensures (have + ['\n'])[|have|..] == ['\n'] && have <= have + ['\n']
    ensures t == Ticks(['\n']) + [] + t[1..]
  {
  }

  /** One byte more in front. */
  lemma PartsLater(t: seq<Tick>, c: char, have: seq<char>, line: seq<char>, late: bool, rest: seq<Tick>)
    requires t != [] && t[0] == Byte(c) && c != '\n' && have + [c] <= line
    requires var s := line[|have + [c]|..];
             && t[1..] == Ticks(s) + (if late then [Timeout] else []) + rest
             && ('\n' !in s || ('\n' !in s[..|s| - 1] && Ended(s)))
    ensures var s := line[|have|..];
            && s == [c] + line[|have + [c]|..] && (Ended(line[|have + [c]|..]) ==> Ended(s))
            && t == Ticks(s) + (if late then [Timeout] else []) + rest
            && ('\n' !in s || ('\n' !in s[..|s| - 1] && Ended(s)))
  {
    var s := line[|have + [c]|..];
    assert line[|have|..] == [c] + s;
    NewlineLater(c, s);
    assert ([c] + s)[..|s|] == ([c] + s)[..|[c] + s| - 1];
    TicksConcat([c], s);
    var gap: seq<Tick> := if late then [Timeout] else [];
    assert t == [Byte(c)] + t[1..] && Ticks([c]) == [Byte(c)];
    assert [Byte(c)] + (Ticks(s) + gap + rest) == [Byte(c)] + Ticks(s) + gap + rest;
  }

  /** The byte-at-a-time reader keeps all bytes of the stream exactly when no pause falls
      into a line, however long the lines are. */
  lemma {:induction false} SimpleKeepsAllExactlyWhen(t: seq<Tick>, count: nat)
    requires count >= 1
    ensures |Kept(SimpleSession(t, count))| <= |Bytes(t)|
    ensures Kept(SimpleSession(t, count)) == Bytes(t) <==> PausesBetweenLines(t)
    decreases |t|
  {
    hide ByteLine, PausesBetweenLines, Ended, Bytes, Ticks;
    ByteLineTakes(t, [], count);
    ByteLineParts(t, [], count);
    var r := ByteLine(t, [], count);
    assert r.line[0..] == r.line;
    var late := r.errno == ETIME;
    BytesOverGap(r.line, if late then [Timeout] else [], r.rest);
    if r.ret == 0 {
      EmptyStream(t, [], count);
      NothingKept(r, count);
    } else {
      EndIsZero(t, count);
      SimpleKeepsAllExactlyWhen(r.rest, count);
      var more := SimpleSession(r.rest, count);
      KeptAfter(r, more);
      assert SimpleSession(t, count) == [r] + more;
      PausesSplit(r.line, late, r.rest);
      KeptSplit(r.line, late, Kept(more), Bytes(r.rest));
    }
  }

  lemma EmptyStream(t: seq<Tick>, have: seq<char>, count: nat)
    requires |have| < count && ByteLine(t, have, count).ret == 0
    ensures t == []
  {
    ByteLineTakes(t, have, count);
  }

  lemma EndIsZero(t: seq<Tick>, count: nat)
    requires count >= 1 && ByteLine(t, [], count).ret != 0
    ensures t != []
  {
  }

  /** A pause in the middle of a line: "ab", a pause, "c" and a newline. Both readers
      keep only what comes after the pause. */
  lemma PauseDropsBytes()
    ensures var t := Ticks(['a', 'b']) + [Timeout] + Ticks(['c', '\n']);
            && Bytes(t) == ['a', 'b', 'c', '\n']
            && Kept(Session(t, 128, [])) == Kept(SimpleSession(t, 128)) == ['c', '\n']
  {
    var ab, c := ['a', 'b'], ['c', '\n'];
    var rest := Ticks(c);
    var t := Ticks(ab) + [Timeout] + rest;
    BytesOfBoth(ab, c, t);
    FirstCalls(ab, rest, t);
    SecondCalls(c, rest);
    LastCalls();
    hide FastLine, ByteLine, Ticks, Bytes;
    var last := [Whole(0, OK, [], [])];
    assert Session(rest, 128, []) == [Whole(2, OK, c, [])] + last;
    assert Session(t, 128, []) == [Whole(-1, ETIME, ab, rest)] + ([Whole(2, OK, c, [])] + last);
    assert SimpleSession(rest, 128) == [Whole(2, OK, c, [])] + last;
    assert SimpleSession(t, 128) == [Whole(-1, ETIME, ab, rest)] + ([Whole(2, OK, c, [])] + last);
    KeptThree(Whole(-1, ETIME, ab, rest), Whole(2, OK, c, []), Whole(0, OK, [], []));
  }

  lemma BytesOfBoth(ab: seq<char>, c: seq<char>, t: seq<Tick>)
    requires t == Ticks(ab) + [Timeout] + Ticks(c)
    ensures Bytes(t) == ab + c
  {
    BytesOverGap(ab, [Timeout], Ticks(c));
    BytesAfter(c, []);
    assert Ticks(c) + [] == Ticks(c) && c + [] == c;
  }

  lemma FirstCalls(ab: seq<char>, rest: seq<Tick>, t: seq<Tick>)
    requires '\n' !in ab && |ab| < 128 && t == Ticks(ab) + [Timeout] + rest
    ensures FastLine(t, 128, 0) == ByteLine(t, [], 128) == Whole(-1, ETIME, ab, rest)
  {
    assert t == Ticks(ab) + ([Timeout] + rest);
    LineTo(ab, [Timeout] + rest);
    ByteLineIs(t, [], 128);
    hide Line, Ticks, ByteLine;
    assert t[|ab| + 1..] == rest && [] + ab == ab;
  }

  lemma SecondCalls(c: seq<char>, rest: seq<Tick>)
    requires c == ['c', '\n'] && rest == Ticks(c)
    ensures FastLine(rest, 128, 0) == ByteLine(rest, [], 128) == Whole(2, OK, c, [])
  {
    assert c == ['c'] + ['\n'] && rest == Ticks(c) + [];
    LineTo(['c'], []);
    ByteLineIs(rest, [], 128);
    hide Line, Ticks, ByteLine;
    assert rest[2..] == [] && [] + c == c;
  }

  lemma LastCalls()
    ensures Session([], 128, []) == SimpleSession([], 128) == [Whole(0, OK, [], [])]
  {
    NothingToRead();
  }

  lemma NothingToRead()
    ensures Line([]) == []
  {
  }

  lemma KeptThree(a: Result, b: Result, c: Result)
    requires a.errno == ETIME && b.errno == OK && c.errno == OK && c.line == []
    ensures Kept([a] + ([b] + [c])) == b.line
  {
    assert ([a] + ([b] + [c]))[1..] == [b] + [c];
    assert ([b] + [c])[1..] == [c] && [c][1..] == [];
    assert Kept([c]) == [];
    assert b.line + [] == b.line;
  }
}
